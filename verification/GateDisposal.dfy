/** What a disposal of the gate controller leaves behind, under every run. */
module GateDisposal {
  import opened GateProtocol
  import opened GateSystem
  import opened GateSteps
  import opened GateRuns
  import opened GateEndings

  ghost predicate NoneHeld(gates: seq<Gate>) { forall j: nat, id :: !Holds(gates, j, id) }

  ghost predicate NothingHeld(s: System) { NoneHeld(s.ctl.gates) }

  ghost predicate AllReleased(gates: seq<Gate>) { forall j :: 0 <= j < |gates| ==> gates[j].released }

  ghost predicate NoArm(es: seq<Event>) { forall e :: e in es ==> !e.ArmGate? }

  // -------- without arming during the disposal --------

  /** Where a disposal has got beyond its gates, they are all released. */
  ghost predicate Emptied(s: System) {
    s.disposal == Disabling || s.disposal == Closed(false) ==> AllReleased(s.ctl.gates)
  }

  lemma EmptiedStep(s: System, e: Event)
    requires Inv(s) && Emptied(s) && Enabled(s, e) && !e.ArmGate?
    ensures Emptied(Next(s, e))
  {
    StepFollows(s, e);
    DisposalBegins(s, e);
    StillReleased(s.ctl.gates, Next(s, e).ctl.gates);
  }

  lemma StillReleased(before: seq<Gate>, after: seq<Gate>)
    requires GatesFollow(before, after) && |after| == |before|
    ensures AllReleased(before) ==> AllReleased(after)
  {
  }

  predicate Beyond(p: Progress) { p == Disabling || p == Closed(false) }

  /** A disposal gets beyond its gates only when they are all released. */
  lemma DisposalBegins(s: System, e: Event)
    requires DisposalOk(s) && Enabled(s, e)
    ensures Beyond(Next(s, e).disposal) ==> Beyond(s.disposal) || AllReleased(s.ctl.gates)
  {
    match e
    case BrowserTurn => TurnKeepsControl(s);
    case Deliver(now) => ClosedByReply(s, now);
    case _ =>
  }

  lemma ClosedByReply(s: System, now: int)
    requires DisposalOk(s) && s.toController != []
    ensures Beyond(Next(s, Deliver(now)).disposal) ==> Beyond(s.disposal)
  {
    if FromOrigin(s.toController[0], Disposing) {
      assert Pending(s.toBrowser, s.toController, Disposing);
    }
  }

  lemma {:induction false} EmptiedRun(s: System, es: seq<Event>)
    requires Inv(s) && Emptied(s) && Legal(s, es) && NoArm(es)
    ensures Inv(Run(s, es)) && Emptied(Run(s, es))
    decreases |es|
  {
    if es != [] {
      StepKeeps(s, es[0]);
      EmptiedStep(s, es[0]);
      EmptiedRun(Next(s, es[0]), es[1..]);
    }
  }

  /** If no gate is armed once the disposal has begun, then, whatever else happens and
      whatever crosses on the connection, it leaves nothing held, unless it is aborted. */
  lemma DisposeWithoutArming(s: System, es: seq<Event>)
    requires Reachable(s) && s.disposal == Live && Legal(s, es) && NoArm(es)
    requires Run(s, es).disposal == Disabling || Run(s, es).disposal.Closed?
    ensures NothingHeld(Run(s, es)) || Run(s, es).disposal == Closed(true)
  {
    ReachableInv(s);
    EmptiedRun(s, es);
  }

  /** And in the browser nothing stays paused, aborted or not, once it has processed what was sent. */
  lemma InTheEndNothingPaused(s: System)
    requires Reachable(s) && s.disposal.Closed? && s.toBrowser == []
    ensures !s.fetchOn && forall id :: id in s.reqs ==> !Paused(s.reqs[id])
  {
    ReachableInv(s);
    assert forall id :: id in s.reqs ==> ReqOk(s.reqs[id], s.disables, s.fetchOn, s.forgets);
  }

  // -------- nothing can be caught before a sealed end --------

  ghost predicate NoneRelevant(msgs: seq<Message>) { forall i :: 0 <= i < |msgs| ==> !Relevant(msgs[i]) }

  /** Interception stays off until a command is processed that ends the disposal. */
  predicate QuietOut(cmds: seq<Sent>) {
    cmds != [] && (Ends(cmds[0].origin) || (cmds[0].command != FetchEnable && QuietOut(cmds[1..])))
  }

  /** Nothing a gate might want comes before the end. */
  predicate QuietIn(msgs: seq<Message>) {
    msgs != [] && (EndsIt(msgs[0]) || (!Relevant(msgs[0]) && QuietIn(msgs[1..])))
  }

  ghost predicate QuietWire(s: System) {
    QuietIn(s.toController) || (NoneRelevant(s.toController) && !s.fetchOn && QuietOut(s.toBrowser))
  }

  ghost predicate Quiet(s: System) { NothingHeld(s) && (s.disposal.Closed? || QuietWire(s)) }

  lemma {:induction false} QuietOutSent(cmds: seq<Sent>, more: seq<Sent>)
    requires QuietOut(cmds)
    ensures QuietOut(cmds + more)
  {
    if !Ends(cmds[0].origin) {
      QuietOutSent(cmds[1..], more);
      assert (cmds + more)[1..] == cmds[1..] + more;
    }
  }

  lemma {:induction false} QuietInEmitted(msgs: seq<Message>, m: Message)
    requires QuietIn(msgs) || (NoneRelevant(msgs) && EndsIt(m))
    ensures QuietIn(msgs + [m])
  {
    if msgs == [] {
      assert msgs + [m] == [m];
    } else if !EndsIt(msgs[0]) {
      assert forall i :: 0 <= i < |msgs[1..]| ==> msgs[1..][i] == msgs[i + 1];
      QuietInEmitted(msgs[1..], m);
      assert (msgs + [m])[1..] == msgs[1..] + [m];
    }
  }

  /** With interception off, the next command of the disposal's own ends it. */
  lemma OffIsDoomed(s: System)
    requires OutboxOk(s.toBrowser, s.reqs) && ReqsOk(s.reqs, s.disables, s.fetchOn, s.forgets)
    requires OriginsOk(s.toBrowser, s.toController) && s.toBrowser != [] && !s.fetchOn && Ends(s.toBrowser[0].origin)
    ensures WillEnd(s, 0)
  {
    assert OriginFits(s.toBrowser[0]);
    if s.toBrowser[0].origin == Teardown {
      assert ReqOk(s.reqs[s.toBrowser[0].command.id], s.disables, s.fetchOn, s.forgets);
    }
  }

  lemma QuietTurn(s: System)
    requires OutboxOk(s.toBrowser, s.reqs) && ReqsOk(s.reqs, s.disables, s.fetchOn, s.forgets)
    requires OriginsOk(s.toBrowser, s.toController) && QuietWire(s) && !s.disposal.Closed? && s.toBrowser != []
    ensures QuietWire(Next(s, BrowserTurn))
  {
    var t := Next(s, BrowserTurn);
    TurnReplies(s);
    TurnFetch(s);
    if !s.fetchOn && Ends(s.toBrowser[0].origin) { OffIsDoomed(s); }
    QuietReply(s.toController, t.toController[|s.toController|]);
  }

  lemma QuietReply(msgs: seq<Message>, m: Message)
    requires m.Reply?
    ensures QuietIn(msgs) || (NoneRelevant(msgs) && EndsIt(m)) ==> QuietIn(msgs + [m])
    ensures NoneRelevant(msgs) ==> NoneRelevant(msgs + [m])
  {
    if QuietIn(msgs) || (NoneRelevant(msgs) && EndsIt(m)) { QuietInEmitted(msgs, m); }
  }

  lemma QuietOthers(s: System, e: Event)
    requires QuietWire(s) && Enabled(s, e) && e != BrowserTurn && e != DisposeNext && !Ending(s, e)
    ensures QuietWire(Next(s, e))
  {
    OthersSend(s, e);
    OthersReceive(s, e);
    QuietKept(s, Next(s, e));
  }

  lemma QuietKept(s: System, t: System)
    requires QuietWire(s) && s.toBrowser <= t.toBrowser && t.fetchOn == s.fetchOn
    requires t.toController == s.toController
             || (s.toController != [] && !EndsIt(s.toController[0]) && t.toController == s.toController[1..])
             || (s.fetchOn && exists m: Message :: t.toController == s.toController + [m])
    ensures QuietWire(t)
  {
    if QuietIn(s.toController) {
      if m: Message :| t.toController == s.toController + [m] { QuietInEmitted(s.toController, m); }
    } else {
      QuietOutSent(s.toBrowser, t.toBrowser[|s.toBrowser|..]);
      assert t.toBrowser == s.toBrowser + t.toBrowser[|s.toBrowser|..];
      assert forall i :: 0 <= i < |t.toController| ==> t.toController[i] in s.toController;
    }
  }

  // -------- nothing more is held --------

  lemma FinishHoldsNone(s: System, j: nat, fail: bool, late: bool, origin: Origin)
    requires NoneHeld(s.ctl.gates) && j < |s.ctl.gates|
    ensures NoneHeld(Perform(s, FinishOrExpire(s.ctl, j, fail, late), origin).ctl.gates)
  {
    var after := Perform(s, FinishOrExpire(s.ctl, j, fail, late), origin).ctl.gates;
    forall i: nat, id ensures !Holds(after, i, id) { assert !Holds(s.ctl.gates, i, id); }
  }

  lemma DeliverHoldsNone(s: System, m: Message, now: int)
    requires NoneHeld(s.ctl.gates) && !Relevant(m)
    ensures NoneHeld(Handle(s, m, now).ctl.gates)
  {
    match m
    case Pausing(id, kind, stage) => PassTurn(s.ctl, id, kind, stage, now);
    case Reply(origin, ok) => ReplyFrame(s, origin, ok);
  }

  lemma ControlHoldsNone(s: System, e: Event)
    requires NoneHeld(s.ctl.gates) && Control(e)
    ensures NoneHeld(Next(s, e).ctl.gates)
  {
    ControlFrame(s, e);
    forall i: nat, id ensures !Holds(Next(s, e).ctl.gates, i, id) { assert !Holds(s.ctl.gates, i, id); }
  }

  lemma NoNewHold(s: System, e: Event)
    requires NoneHeld(s.ctl.gates) && Enabled(s, e) && e != DisposeNext && (e.Deliver? ==> !Relevant(s.toController[0]))
    ensures NoneHeld(Next(s, e).ctl.gates)
  {
    match e
    case Begin(_, _) =>
    case Arrive(_) =>
    case BrowserTurn => TurnKeepsControl(s);
    case Deliver(now) => DeliverHoldsNone(s.(toController := s.toController[1..]), s.toController[0], now);
    case FinishGate(j, fail) => FinishHoldsNone(s, j, fail, false, Caller);
    case ExpireGate(j) => FinishHoldsNone(s, j, false, true, Timer);
    case _ => ControlHoldsNone(s, e);
  }

  lemma NotRelevant(s: System)
    requires QuietWire(s) && s.toController != []
    ensures !Relevant(s.toController[0])
  {
  }

  lemma {:induction false} QuietInEnds(msgs: seq<Message>)
    requires QuietIn(msgs)
    ensures EndIn(msgs)
  {
    if EndsIt(msgs[0]) {
      assert EndIn(msgs);
    } else {
      QuietInEnds(msgs[1..]);
      var i :| 0 <= i < |msgs[1..]| && EndsIt(msgs[1..][i]);
      assert EndsIt(msgs[i + 1]);
    }
  }

  lemma {:induction false} QuietOutEnds(cmds: seq<Sent>)
    requires QuietOut(cmds)
    ensures exists i :: 0 <= i < |cmds| && Ends(cmds[i].origin)
  {
    if !Ends(cmds[0].origin) {
      QuietOutEnds(cmds[1..]);
      var i :| 0 <= i < |cmds[1..]| && Ends(cmds[1..][i].origin);
      assert Ends(cmds[i + 1].origin);
    }
  }

  /** The disposal waits for its quiet end. */
  lemma QuietWaits(s: System)
    requires DisposalOk(s) && !s.disposal.Closed? && QuietWire(s)
    ensures !Enabled(s, DisposeNext)
  {
    if QuietIn(s.toController) {
      QuietInEnds(s.toController);
      EndIsAwaited(s);
    } else {
      QuietOutEnds(s.toBrowser);
      var i :| 0 <= i < |s.toBrowser| && Ends(s.toBrowser[i].origin);
      assert Pending(s.toBrowser, s.toController, s.toBrowser[i].origin);
    }
  }

  lemma QuietStep(s: System, e: Event)
    requires Inv(s) && Quiet(s) && Enabled(s, e)
    ensures Quiet(Next(s, e))
  {
    if s.disposal.Closed? {
      ClosedStep(s, e);
    } else {
      QuietWaits(s);
      if e.Deliver? { NotRelevant(s); }
      NoNewHold(s, e);
      QuietWireStep(s, e);
    }
  }

  lemma QuietWireStep(s: System, e: Event)
    requires Inv(s) && QuietWire(s) && !s.disposal.Closed? && Enabled(s, e) && e != DisposeNext
    ensures Next(s, e).disposal.Closed? || QuietWire(Next(s, e))
  {
    if e == BrowserTurn {
      QuietTurn(s);
    } else if Ending(s, e) {
      EndingCloses(s, e.now);
    } else {
      QuietOthers(s, e);
    }
  }

  lemma {:induction false} QuietRun(s: System, es: seq<Event>)
    requires Inv(s) && Quiet(s) && Legal(s, es)
    ensures Quiet(Run(s, es))
    decreases |es|
  {
    if es != [] {
      StepKeeps(s, es[0]);
      QuietStep(s, es[0]);
      QuietRun(Next(s, es[0]), es[1..]);
    }
  }

  // -------- and where something can be caught, there is a run that shows it --------

  /** What makes an inbox not quiet: a wanted pause with no end before it, or neither. */
  lemma {:induction false} NotQuietIn(msgs: seq<Message>) returns (k: nat)
    requires !QuietIn(msgs)
    ensures k < |msgs| ==> Relevant(msgs[k]) && forall i :: 0 <= i < k ==> !EndsIt(msgs[i])
    ensures k >= |msgs| ==> NoneRelevant(msgs) && !EndIn(msgs)
  {
    if msgs == [] {
      k := 0;
    } else if Relevant(msgs[0]) {
      k := 0;
    } else {
      k := NotQuietIn(msgs[1..]);
      assert forall i :: 0 < i < |msgs| ==> msgs[i] == msgs[1..][i - 1];
      k := k + 1;
    }
  }

  /** And an outbox: an enable with nothing before it that ends the disposal, or neither. */
  lemma {:induction false} NotQuietOut(cmds: seq<Sent>) returns (k: nat)
    requires !QuietOut(cmds)
    ensures k < |cmds| ==> cmds[k].command == FetchEnable && forall i :: 0 <= i <= k ==> !Ends(cmds[i].origin)
    ensures k >= |cmds| ==> forall i :: 0 <= i < |cmds| ==> !Ends(cmds[i].origin)
  {
    if cmds == [] {
      k := 0;
    } else if cmds[0].command == FetchEnable {
      k := 0;
    } else {
      k := NotQuietOut(cmds[1..]);
      assert forall i :: 0 < i < |cmds| ==> cmds[i] == cmds[1..][i - 1];
      k := k + 1;
    }
  }

  /** A run that ends the disposal with something held. */
  ghost predicate EndsHolding(s: System, es: seq<Event>, j: nat, id: RequestId) {
    Legal(s, es) && Run(s, es).disposal == Closed(s.disposal.Draining?) && HeldBy(Run(s, es), j, id)
  }

  lemma HeldToEnd(s: System, j: nat, id: RequestId) returns (es: seq<Event>)
    requires Inv(s) && !s.disposal.Closed? && EndAhead(s) && HeldBy(s, j, id)
    ensures EndsHolding(s, es, j, id)
  {
    var u: System;
    es, u := GoToEnd(s);
    assert SameSort(u.ctl.gates[j], s.ctl.gates[j]);
  }

  lemma CaughtToEnd(s: System, k: nat) returns (es: seq<Event>, j: nat, id: RequestId)
    requires Inv(s) && !s.disposal.Closed? && EndAhead(s) && k < |s.toController| && Relevant(s.toController[k])
    requires forall i :: 0 <= i < k ==> !EndsIt(s.toController[i])
    ensures EndsHolding(s, es, j, id)
  {
    var u, first: seq<Event>, rest: seq<Event>;
    id := s.toController[k].id;
    first, u, j := ArmAndCatch(s, k);
    rest := HeldToEnd(u, j, id);
    RunAppend(s, first, rest);
    es := first + rest;
  }

  lemma OnToEnd(s: System) returns (es: seq<Event>, j: nat, id: RequestId)
    requires Inv(s) && !s.disposal.Closed? && EndAhead(s) && s.fetchOn && !EndIn(s.toController)
    ensures EndsHolding(s, es, j, id)
  {
    var e := Intercept(s);
    var t := Next(s, e);
    var rest: seq<Event>;
    assert Relevant(t.toController[|s.toController|]);
    assert forall i :: 0 <= i < |s.toController| ==> t.toController[i] == s.toController[i];
    rest, j, id := CaughtToEnd(t, |s.toController|);
    RunCons(s, e, rest);
    es := [e] + rest;
  }

  lemma SwitchedToEnd(s: System, k: nat) returns (es: seq<Event>, j: nat, id: RequestId)
    requires Inv(s) && !s.disposal.Closed? && EndAhead(s) && !EndIn(s.toController)
    requires k < |s.toBrowser| && s.toBrowser[k].command == FetchEnable
    requires forall i :: 0 <= i <= k ==> !Ends(s.toBrowser[i].origin)
    ensures EndsHolding(s, es, j, id)
  {
    var first: seq<Event>, u: System, n: nat, rest: seq<Event>;
    first, u, n := TurnOn(s, k + 1);
    rest, j, id := OnToEnd(u);
    RunAppend(s, first, rest);
    es := first + rest;
  }

  lemma UnquietEnd(s: System) returns (es: seq<Event>, j: nat, id: RequestId)
    requires Inv(s) && !s.disposal.Closed? && EndAhead(s) && !Quiet(s)
    ensures EndsHolding(s, es, j, id)
  {
    if !NothingHeld(s) {
      j, id :| Holds(s.ctl.gates, j, id);
      es := HeldToEnd(s, j, id);
    } else {
      var k := NotQuietIn(s.toController);
      if k < |s.toController| {
        es, j, id := CaughtToEnd(s, k);
      } else if s.fetchOn {
        es, j, id := OnToEnd(s);
      } else {
        k := NotQuietOut(s.toBrowser);
        es, j, id := SwitchedToEnd(s, k);
      }
    }
  }

  /** Nothing is left held in whatever way the connection comes to be closed. */
  ghost predicate LeavesNothing(s: System) {
    forall es :: Legal(s, es) && Run(s, es).disposal.Closed? ==> NothingHeld(Run(s, es))
  }

  lemma LeavesSomething(s: System, es: seq<Event>, j: nat, id: RequestId)
    requires EndsHolding(s, es, j, id)
    ensures !LeavesNothing(s)
  {
    assert Holds(Run(s, es).ctl.gates, j, id);
  }

  /** Once the end is sealed, the final acknowledgement or an abortion, nothing is left
      held whatever happens, arming included, exactly if nothing is held now and no
      wanted pause can reach the controller before it. */
  lemma SealedEndLeavesNothing(s: System)
    requires Inv(s) && !s.disposal.Closed? && EndAhead(s)
    ensures LeavesNothing(s) <==> Quiet(s)
  {
    if Quiet(s) {
      forall es | Legal(s, es) && Run(s, es).disposal.Closed? ensures NothingHeld(Run(s, es)) { QuietRun(s, es); }
    } else {
      var es, j, id := UnquietEnd(s);
      LeavesSomething(s, es, j, id);
    }
  }

  // -------- at the moment when the disposal goes on --------

  ghost predicate EnableAhead(cmds: seq<Sent>) { exists i :: 0 <= i < |cmds| && cmds[i].command == FetchEnable }

  /** A pause that a gate might want can still reach the controller, of the requests
      that the browser intercepts before it processes a command sent now. */
  ghost predicate PauseAhead(s: System) {
    s.fetchOn || EnableAhead(s.toBrowser) || !NoneRelevant(s.toController)
  }

  lemma NoEndYet(s: System)
    requires DisposalOk(s) && Enabled(s, DisposeNext)
    ensures forall i :: 0 <= i < |s.toBrowser| ==> !Ends(s.toBrowser[i].origin)
    ensures !EndIn(s.toController)
  {
    assert !Pending(s.toBrowser, s.toController, Disposing);
    forall i | 0 <= i < |s.toController| ensures !EndsIt(s.toController[i]) {
      assert !FromOrigin(s.toController[i], Disposing) && !FromOrigin(s.toController[i], Teardown);
    }
  }

  lemma {:induction false} QuietOutAfter(cmds: seq<Sent>, more: seq<Sent>)
    requires more != [] && Ends(more[0].origin) && forall i :: 0 <= i < |cmds| ==> !Ends(cmds[i].origin)
    ensures QuietOut(cmds + more) <==> !EnableAhead(cmds)
  {
    if cmds == [] {
      assert cmds + more == more;
    } else {
      assert forall i :: 0 <= i < |cmds[1..]| ==> cmds[1..][i] == cmds[i + 1];
      QuietOutAfter(cmds[1..], more);
      assert (cmds + more)[1..] == cmds[1..] + more;
      if i :| 0 <= i < |cmds[1..]| && cmds[1..][i].command == FetchEnable { assert cmds[i + 1].command == FetchEnable; }
    }
  }

  /** A command of the disposal's own is sent. */
  lemma QuietSent(s: System, t: System, more: seq<Sent>)
    requires DisposalOk(s) && Enabled(s, DisposeNext) && more != [] && Ends(more[0].origin)
    requires t.toBrowser == s.toBrowser + more && t.toController == s.toController && t.fetchOn == s.fetchOn
    ensures QuietWire(t) <==> !PauseAhead(s)
  {
    NoEndYet(s);
    QuietOutAfter(s.toBrowser, more);
    if QuietIn(s.toController) { QuietInEnds(s.toController); }
  }

  /** The state in which the drained disposal has just sent the final disable. */
  lemma FinalSent(s: System)
    requires Inv(s) && Enabled(s, DisposeNext) && s.disposal.next >= |s.ctl.gates| && s.ctl.fetchEnabled
    ensures var t := Next(s, DisposeNext);
            Inv(t) && t.disposal == Disabling && EndAhead(t) && NothingHeld(t) && (QuietWire(t) <==> !PauseAhead(s))
  {
    var t := Next(s, DisposeNext);
    StepKeeps(s, DisposeNext);
    QuietSent(s, t, [Sent(FetchDisable, Disposing)]);
    assert t.toBrowser[|s.toBrowser|].origin == Disposing;
    assert WillEnd(t, |s.toBrowser|);
  }

  /** Exactly when a disposal is sure to leave nothing held even if gates are armed
      meanwhile.  `s` is the moment the drained disposal goes on; it is unsafe if the
      controller takes interception for on and a wanted pause may still cross the
      final disable: interception is on, or about to be, or such a pause is on its way. */
  lemma DisposeLeavesNothing(s: System)
    requires Reachable(s) && Enabled(s, DisposeNext) && s.disposal.next >= |s.ctl.gates|
    ensures LeavesNothing(Next(s, DisposeNext)) <==> !(s.ctl.fetchEnabled && PauseAhead(s))
  {
    ReachableInv(s);
    var t := Next(s, DisposeNext);
    if s.ctl.fetchEnabled {
      FinalSent(s);
      SealedEndLeavesNothing(t);
    } else {
      StepKeeps(s, DisposeNext);
      forall es | Legal(t, es) ensures NothingHeld(Run(t, es)) { ClosedStays(t, es); }
    }
  }

  /** The bad case is reachable: a fresh controller is disposed, and a gate armed while
      the final disable is on its way catches a pause that crosses it. */
  lemma DisposedWhileHolding(forgets: bool) returns (es: seq<Event>, j: nat, id: RequestId)
    ensures Legal(Start(forgets), es)
    ensures Run(Start(forgets), es).disposal == Closed(false) && HeldBy(Run(Start(forgets), es), j, id)
  {
    var s0 := Start(forgets);
    StartInv(forgets);
    var s1 := Next(s0, Dispose);
    StepKeeps(s0, Dispose);
    FinalSent(s1);
    RunOne(s0, Dispose);
    RunThen(s0, [Dispose], DisposeNext);
    var rest: seq<Event>;
    rest, j, id := UnquietEnd(Next(s1, DisposeNext));
    RunAppend(s0, [Dispose] + [DisposeNext], rest);
    es := [Dispose] + [DisposeNext] + rest;
  }
}
