/** When a disposal of the gate controller is aborted by an answer of its own, and what it then leaves held. */
module GateAborts {
  import opened GateProtocol
  import opened GateSystem
  import opened GateSteps
  import opened GateRuns
  import opened GateFates
  import opened GateEndings
  import opened GateDisposal

  /** An answer sent now would miss. */
  ghost predicate Late(s: System, id: RequestId) { id in s.reqs && Doomed(s, id, |s.toBrowser|) }

  // -------- one gate of the disposal --------

  ghost predicate HoldsLate(s: System, j: nat) { exists id :: HeldBy(s, j, id) && Late(s, id) }

  lemma DrainEffect(s: System)
    requires Enabled(s, DisposeNext) && s.disposal.next < |s.ctl.gates| && !s.ctl.gates[s.disposal.next].released
    ensures var j := s.disposal.next;
            var u := Next(s, DisposeNext).(disposal := s.disposal);
            Next(s, DisposeNext).disposal == Draining(j + 1) && After(s, u, j, false, false, Teardown)
  {
    FinishEffect(s, s.disposal.next, false, false, Teardown);
  }

  /** An answer is doomed where it is queued exactly if it would have been when it was sent. */
  lemma SentFate(s: System, t: System, id: RequestId, i: nat)
    requires id in s.reqs && id in t.reqs && t.reqs[id].epoch == s.reqs[id].epoch && t.disables == s.disables
    requires |s.toBrowser| <= i < |t.toBrowser| && s.toBrowser <= t.toBrowser
    requires forall k :: |s.toBrowser| <= k < |t.toBrowser| ==> t.toBrowser[k].command != FetchDisable
    ensures Doomed(t, id, i) <==> Doomed(s, id, |s.toBrowser|)
  {
    assert forall k :: 0 <= k < |s.toBrowser| ==> t.toBrowser[k] == s.toBrowser[k];
  }

  /** Finishing gate `j` for the disposal seals the end exactly if what it holds is late. */
  lemma AfterSeals(s: System, t: System, j: nat)
    requires HeldOk(s.ctl.gates, s.reqs) && OutboxOk(s.toBrowser, s.reqs)
    requires j < |s.ctl.gates| && !s.ctl.gates[j].released && After(s, t, j, false, false, Teardown)
    requires !EndIn(s.toController) && forall i :: 0 <= i < |s.toBrowser| ==> !Ends(s.toBrowser[i].origin)
    ensures EndAhead(t) <==> HoldsLate(s, j)
  {
    var g := s.ctl.gates[j];
    var n := |s.toBrowser|;
    WereHeld(s.ctl.gates, s.reqs, j);
    forall i: nat | n <= i < |t.toBrowser| ensures WillEnd(t, i) <==> Late(s, g.ids[i - n]) {
      assert g.ids[i - n] in g.ids;
      SentFate(s, t, g.ids[i - n], i);
    }
    forall i: nat | i < n ensures !WillEnd(t, i) { assert t.toBrowser[i] == s.toBrowser[i]; }
    if HoldsLate(s, j) {
      var id :| HeldBy(s, j, id) && Late(s, id);
      var k :| 0 <= k < |g.ids| && g.ids[k] == id;
      assert WillEnd(t, n + k);
    }
    if i: nat :| i < |t.toBrowser| && WillEnd(t, i) {
      assert Holds(s.ctl.gates, j, g.ids[i - n]);
    }
  }

  lemma DrainSeals(s: System)
    requires Inv(s) && Enabled(s, DisposeNext) && s.disposal.next < |s.ctl.gates|
    ensures var t := Next(s, DisposeNext);
            Inv(t) && t.disposal == Draining(s.disposal.next + 1) && EndAhead(t) == HoldsLate(s, s.disposal.next)
  {
    StepKeeps(s, DisposeNext);
    NoEndYet(s);
    if s.ctl.gates[s.disposal.next].released { DrainAgain(s); } else { DrainFirst(s); }
  }

  lemma DrainAgain(s: System)
    requires Enabled(s, DisposeNext) && s.disposal.next < |s.ctl.gates| && s.ctl.gates[s.disposal.next].released
    ensures EndAhead(Next(s, DisposeNext)) == EndAhead(s)
  {
    FinishAgain(s, s.disposal.next, false, Teardown);
    SameEnd(s, Next(s, DisposeNext));
  }

  lemma DrainFirst(s: System)
    requires HeldOk(s.ctl.gates, s.reqs) && OutboxOk(s.toBrowser, s.reqs)
    requires Enabled(s, DisposeNext) && s.disposal.next < |s.ctl.gates| && !s.ctl.gates[s.disposal.next].released
    requires !EndIn(s.toController) && forall i :: 0 <= i < |s.toBrowser| ==> !Ends(s.toBrowser[i].origin)
    ensures EndAhead(Next(s, DisposeNext)) == HoldsLate(s, s.disposal.next)
  {
    var u := Next(s, DisposeNext).(disposal := s.disposal);
    DrainEffect(s);
    AfterSeals(s, u, s.disposal.next);
    SameEnd(u, Next(s, DisposeNext));
  }

  lemma SameEnd(s: System, t: System)
    requires t == s.(disposal := t.disposal)
    ensures EndAhead(t) == EndAhead(s)
  {
    forall i: nat | i < |s.toBrowser| ensures WillEnd(t, i) == WillEnd(s, i) {}
  }

  lemma {:induction false} UnsealedStays(s: System, es: seq<Event>)
    requires Inv(s) && s.disposal.Draining? && !EndAhead(s) && Legal(s, es) && DisposeNext !in es
    ensures Run(s, es).disposal == s.disposal
    decreases |es|
  {
    if es != [] {
      StepKeeps(s, es[0]);
      EndStep(s, es[0]);
      assert !Ending(s, es[0]);
      UnsealedStays(Next(s, es[0]), es[1..]);
    }
  }

  /** Gate by gate.  If something that the next gate holds is late, then draining it
      aborts the disposal: it does not come to another gate, whatever happens, and some
      run closes it.  Otherwise nothing whatever ends the disposal before it goes on. */
  lemma GateAbortsIff(s: System)
    requires Reachable(s) && Enabled(s, DisposeNext) && s.disposal.next < |s.ctl.gates|
    ensures var t := Next(s, DisposeNext);
            if HoldsLate(s, s.disposal.next) then
              && (forall es :: Legal(t, es) ==>
                    Run(t, es).disposal == Closed(true) || (Run(t, es).disposal == t.disposal && !Enabled(Run(t, es), DisposeNext)))
              && exists es :: Legal(t, es) && Run(t, es).disposal == Closed(true)
            else
              forall es :: Legal(t, es) && DisposeNext !in es ==> Run(t, es).disposal == t.disposal
  {
    ReachableInv(s);
    DrainSeals(s);
    var t := Next(s, DisposeNext);
    if HoldsLate(s, s.disposal.next) {
      forall es | Legal(t, es)
        ensures Run(t, es).disposal == Closed(true) || (Run(t, es).disposal == t.disposal && !Enabled(Run(t, es), DisposeNext))
      {
        SealedAbort(t, es);
      }
      var es, u := GoToEnd(t);
      assert Legal(t, es) && Run(t, es).disposal == Closed(true);
    } else {
      forall es | Legal(t, es) && DisposeNext !in es ensures Run(t, es).disposal == t.disposal { UnsealedStays(t, es); }
    }
  }

  lemma SealedAbort(t: System, es: seq<Event>)
    requires Inv(t) && t.disposal.Draining? && EndAhead(t) && Legal(t, es)
    ensures Run(t, es).disposal == Closed(true) || (Run(t, es).disposal == t.disposal && !Enabled(Run(t, es), DisposeNext))
  {
    EndIsSealed(t, es);
    if Run(t, es).disposal == t.disposal { EndIsAwaited(Run(t, es)); }
  }

  // -------- what an aborted disposal leaves --------

  ghost predicate NoOtherHolds(gates: seq<Gate>, j: nat) { forall i: nat, id :: i != j ==> !Holds(gates, i, id) }

  lemma DrainHolds(s: System)
    requires Enabled(s, DisposeNext) && s.disposal.next < |s.ctl.gates|
    ensures NothingHeld(Next(s, DisposeNext)) <==> NoOtherHolds(s.ctl.gates, s.disposal.next)
  {
    var j, gates, after := s.disposal.next, s.ctl.gates, Next(s, DisposeNext).ctl.gates;
    assert |after| == |gates| && after[j].released && forall i :: 0 <= i < |gates| && i != j ==> after[i] == gates[i];
    forall i: nat, id ensures Holds(after, i, id) <==> i != j && Holds(gates, i, id) {}
  }

  /** A disposal whose next gate holds something late will be aborted.  Whatever
      happens, arming included, that leaves nothing held exactly if no other gate holds
      anything now and no wanted pause can come before the error does. */
  lemma AbortLeavesNothing(s: System)
    requires Reachable(s) && Enabled(s, DisposeNext) && s.disposal.next < |s.ctl.gates| && HoldsLate(s, s.disposal.next)
    ensures LeavesNothing(Next(s, DisposeNext)) <==> NoOtherHolds(s.ctl.gates, s.disposal.next) && !PauseAhead(s)
  {
    ReachableInv(s);
    DrainSeals(s);
    DrainHolds(s);
    DrainQuiet(s);
    SealedEndLeavesNothing(Next(s, DisposeNext));
  }

  lemma DrainQuiet(s: System)
    requires Inv(s) && Enabled(s, DisposeNext) && s.disposal.next < |s.ctl.gates| && HoldsLate(s, s.disposal.next)
    ensures QuietWire(Next(s, DisposeNext)) <==> !PauseAhead(s)
  {
    var j, t := s.disposal.next, Next(s, DisposeNext);
    DrainEffect(s);
    var gates := s.ctl.gates[j := Finished(s.ctl.gates[j], false, false)];
    QuietSent(s, t, Farewell(gates, s.ctl.gates[j], false, Teardown));
  }

  // -------- whether a disposal is aborted at all --------

  /** A request that a gate holds, or may still catch, though it is late. */
  ghost predicate LateOpen(s: System, id: RequestId) {
    && Late(s, id)
    && (s.reqs[id].place.InGate? || (s.reqs[id].place == Inbox && s.reqs[id].kind.Some?))
  }

  /** Interception is on at some time before a disable that is on its way. */
  ghost predicate Crossing(s: System) {
    exists k: nat :: k < |s.toBrowser| && s.toBrowser[k].command == FetchDisable && OnBefore(s, k)
  }

  /** The disposal is bound to be aborted, or may come to hold something that is late. */
  ghost predicate AbortAhead(s: System) { EndAhead(s) || (exists id :: LateOpen(s, id)) || Crossing(s) }

  predicate Unfinished(p: Progress) { p == Live || p.Draining? }

  // -------- where it is not ahead, it does not come --------

  ghost predicate LateSince(s: System, epoch: nat) { epoch < s.disables || DisableBefore(s.toBrowser, |s.toBrowser|) }

  /** From `s` to `t` no disable is sent: commands join, or the oldest is processed. */
  ghost predicate NoDisableSent(s: System, t: System) {
    || (s.toBrowser <= t.toBrowser && t.disables == s.disables && t.fetchOn == s.fetchOn
        && forall i :: |s.toBrowser| <= i < |t.toBrowser| ==> t.toBrowser[i].command != FetchDisable)
    || (s.toBrowser != [] && t.toBrowser == s.toBrowser[1..]
        && t.disables == s.disables + One(s.toBrowser[0].command == FetchDisable)
        && t.fetchOn == (s.toBrowser[0].command == FetchEnable || (s.fetchOn && s.toBrowser[0].command != FetchDisable)))
  }

  lemma SameLateness(s: System, t: System, epoch: nat)
    requires NoDisableSent(s, t) && epoch <= s.disables
    ensures LateSince(t, epoch) <==> LateSince(s, epoch)
  {
    if s.toBrowser <= t.toBrowser && t.disables == s.disables
       && forall i :: |s.toBrowser| <= i < |t.toBrowser| ==> t.toBrowser[i].command != FetchDisable {
      assert forall i :: 0 <= i < |s.toBrowser| ==> t.toBrowser[i] == s.toBrowser[i];
    } else {
      assert forall i :: 0 <= i < |t.toBrowser| ==> t.toBrowser[i] == s.toBrowser[i + 1];
      if k :| 0 <= k < |s.toBrowser| && s.toBrowser[k].command == FetchDisable {
        assert k > 0 ==> t.toBrowser[k - 1].command == FetchDisable;
      }
    }
  }

  lemma CrossingBack(s: System, t: System)
    requires NoDisableSent(s, t) && Crossing(t)
    ensures Crossing(s)
  {
    var k: nat :| k < |t.toBrowser| && t.toBrowser[k].command == FetchDisable && OnBefore(t, k);
    if s.toBrowser <= t.toBrowser && t.disables == s.disables && t.fetchOn == s.fetchOn
       && forall i :: |s.toBrowser| <= i < |t.toBrowser| ==> t.toBrowser[i].command != FetchDisable {
      assert forall i :: 0 <= i < |s.toBrowser| ==> t.toBrowser[i] == s.toBrowser[i];
      assert OnBefore(s, k);
    } else {
      assert forall i :: 0 <= i < |t.toBrowser| ==> t.toBrowser[i] == s.toBrowser[i + 1];
      if i :| 0 <= i < k && t.toBrowser[i].command == FetchEnable {
        assert s.toBrowser[i + 1].command == FetchEnable;
      } else if !s.fetchOn {
        assert s.toBrowser[0].command == FetchEnable;
      }
      assert OnBefore(s, k + 1);
    }
  }

  /** What is late and may be held was so before, or has paused ahead of a disable. */
  lemma LateOpenBack(s: System, t: System, id: RequestId)
    requires ReqsOk(s.reqs, s.disables, s.fetchOn, s.forgets) && Follows(s, t) && NoDisableSent(s, t) && LateOpen(t, id)
    ensures LateOpen(s, id) || Crossing(s)
  {
    var epoch := t.reqs[id].epoch;
    if id in s.reqs && epoch == s.reqs[id].epoch {
      assert ReqOk(s.reqs[id], s.disables, s.fetchOn, s.forgets);
      SameLateness(s, t, epoch);
    }
    if epoch == s.disables && s.fetchOn {
      SameLateness(s, t, epoch);
      assert LateSince(s, epoch) ==> Crossing(s) by {
        if k: nat :| k < |s.toBrowser| && s.toBrowser[k].command == FetchDisable { assert OnBefore(s, k); }
      }
    }
  }

  lemma SafeStep(s: System, t: System)
    requires ReqsOk(s.reqs, s.disables, s.fetchOn, s.forgets) && Follows(s, t) && NoDisableSent(s, t)
    requires !AbortAhead(s) && !EndAhead(t)
    ensures !AbortAhead(t)
  {
    if id :| LateOpen(t, id) { LateOpenBack(s, t, id); }
    if Crossing(t) { CrossingBack(s, t); }
  }

  lemma OthersSendNoDisable(s: System, e: Event)
    requires OutboxOk(s.toBrowser, s.reqs) && ReqsOk(s.reqs, s.disables, s.fetchOn, s.forgets)
    requires Enabled(s, e) && e != DisposeNext && e != Suspend && !Ending(s, e)
    ensures NoDisableSent(s, Next(s, e))
  {
    if e == BrowserTurn {
      TurnFetch(s);
      TurnDisables(s);
    } else {
      OthersSend(s, e);
      OthersReceive(s, e);
    }
  }

  lemma TurnDisables(s: System)
    requires s.toBrowser != []
    ensures var t := Next(s, BrowserTurn);
            t.toBrowser == s.toBrowser[1..] && t.disables == s.disables + One(s.toBrowser[0].command == FetchDisable)
  {
  }

  lemma DrainSendsNoDisable(s: System)
    requires Enabled(s, DisposeNext) && s.disposal.next < |s.ctl.gates|
    ensures NoDisableSent(s, Next(s, DisposeNext))
  {
  }

  lemma AbortStep(s: System, e: Event)
    requires Inv(s) && Unfinished(s.disposal) && !AbortAhead(s) && Enabled(s, e) && e != Suspend
    ensures var t := Next(s, e); Beyond(t.disposal) || (Unfinished(t.disposal) && !AbortAhead(t))
  {
    if e != DisposeNext {
      assert !Ending(s, e);
      EndStep(s, e);
      StepFollows(s, e);
      OthersSendNoDisable(s, e);
      SafeStep(s, Next(s, e));
    } else if s.disposal.next < |s.ctl.gates| {
      AbortDrain(s);
    }
  }

  lemma AbortDrain(s: System)
    requires Inv(s) && !AbortAhead(s) && Enabled(s, DisposeNext) && s.disposal.next < |s.ctl.gates|
    ensures var t := Next(s, DisposeNext); Unfinished(t.disposal) && !AbortAhead(t)
  {
    DrainSeals(s);
    if id :| HeldBy(s, s.disposal.next, id) && Late(s, id) { assert LateOpen(s, id); }
    StepFollows(s, DisposeNext);
    DrainSendsNoDisable(s);
    SafeStep(s, Next(s, DisposeNext));
  }

  lemma BeyondStep(s: System, e: Event)
    requires Inv(s) && Beyond(s.disposal) && Enabled(s, e)
    ensures Beyond(Next(s, e).disposal)
  {
    if s.disposal.Closed? { ClosedStep(s, e); } else { EndStep(s, e); }
  }

  lemma {:induction false} NeverAborted(s: System, es: seq<Event>)
    requires Inv(s) && (Beyond(s.disposal) || (Unfinished(s.disposal) && !AbortAhead(s)))
    requires Legal(s, es) && Suspend !in es
    ensures Run(s, es).disposal != Closed(true)
    decreases |es|
  {
    if es != [] {
      StepKeeps(s, es[0]);
      if Beyond(s.disposal) { BeyondStep(s, es[0]); } else { AbortStep(s, es[0]); }
      NeverAborted(Next(s, es[0]), es[1..]);
    }
  }

  // -------- where it is ahead, there is a run that shows it --------

  ghost predicate Calm(es: seq<Event>) { Suspend !in es && NoArm(es) }

  /** The disposal has not been aborted so far, and gate `j` holds something late. */
  ghost predicate Carrying(s: System, j: nat, id: RequestId) {
    !s.disposal.Closed? && !EndAhead(s) && HeldBy(s, j, id) && Late(s, id)
  }

  lemma CarryStep(s: System, e: Event, j: nat, id: RequestId)
    requires Inv(s) && Carrying(s, j, id) && Moving(s, e)
    ensures var t := Next(s, e); Inv(t) && Carrying(t, j, id) && t.disposal == s.disposal
  {
    assert !Ending(s, e);
    StepKeeps(s, e);
    EndStep(s, e);
    MovingHolds(s, e);
    StepFollows(s, e);
    OthersSendNoDisable(s, e);
    CarryLate(s, Next(s, e), j, id);
  }

  lemma CarryLate(s: System, t: System, j: nat, id: RequestId)
    requires HeldOk(s.ctl.gates, s.reqs) && HeldOk(t.ctl.gates, t.reqs) && ReqsOk(s.reqs, s.disables, s.fetchOn, s.forgets)
    requires Follows(s, t) && NoDisableSent(s, t) && HeldBy(s, j, id) && HeldBy(t, j, id) && Late(s, id)
    ensures Late(t, id)
  {
    assert t.reqs[id].place == InGate(j);
    assert ReqOk(s.reqs[id], s.disables, s.fetchOn, s.forgets);
    EpochStays(s, t, id);
    SameLateness(s, t, s.reqs[id].epoch);
  }

  /** The browser processes everything that has been sent. */
  lemma {:induction false} SettleTurns(s: System, j: nat, id: RequestId) returns (es: seq<Event>, u: System)
    requires Inv(s) && Carrying(s, j, id)
    ensures Leads(s, es, u) && Inv(u) && Carrying(u, j, id) && u.disposal == s.disposal && u.toBrowser == []
    decreases |s.toBrowser|
  {
    if s.toBrowser == [] {
      es, u := [], s;
      LeadsNowhere(s);
    } else {
      CarryStep(s, BrowserTurn, j, id);
      TurnDisables(s);
      es, u := SettleTurns(Next(s, BrowserTurn), j, id);
      LeadsOn(s, BrowserTurn, es, u);
      es := [BrowserTurn] + es;
    }
  }

  ghost predicate NoneEnds(cmds: seq<Sent>) { forall i :: 0 <= i < |cmds| ==> !Ends(cmds[i].origin) }

  /** And the controller handles everything that has come back. */
  lemma {:induction false} SettleMessages(s: System, j: nat, id: RequestId) returns (es: seq<Event>, u: System)
    requires Inv(s) && Carrying(s, j, id) && NoneEnds(s.toBrowser)
    ensures Leads(s, es, u) && Inv(u) && Carrying(u, j, id) && u.disposal == s.disposal
    ensures u.toController == [] && NoneEnds(u.toBrowser)
    decreases |s.toController|
  {
    if s.toController == [] {
      es, u := [], s;
      LeadsNowhere(s);
    } else {
      CarryStep(s, Deliver(0), j, id);
      DeliverSettles(s);
      es, u := SettleMessages(Next(s, Deliver(0)), j, id);
      LeadsOn(s, Deliver(0), es, u);
      es := [Deliver(0)] + es;
    }
  }

  lemma DeliverSettles(s: System)
    requires s.toController != [] && !EndAhead(s) && NoneEnds(s.toBrowser)
    ensures var t := Next(s, Deliver(0)); NoneEnds(t.toBrowser) && |t.toController| == |s.toController| - 1
  {
    assert !EndsIt(s.toController[0]);
    DeliverReceives(s.(toController := s.toController[1..]), s.toController[0], 0);
    OthersSend(s, Deliver(0));
  }

  lemma LeadsTogether(s: System, a: seq<Event>, u: System, b: seq<Event>, v: System)
    requires Leads(s, a, u) && Leads(u, b, v)
    ensures Leads(s, a + b, v)
  {
    RunAppend(s, a, b);
    KeepsHoldingTransitive(s.ctl.gates, u.ctl.gates, v.ctl.gates);
  }

  lemma Settle(s: System, j: nat, id: RequestId) returns (es: seq<Event>, u: System)
    requires Inv(s) && Carrying(s, j, id) && s.disposal.Draining?
    ensures Leads(s, es, u) && Inv(u) && Carrying(u, j, id) && u.disposal == s.disposal && Enabled(u, DisposeNext)
  {
    var a, v := SettleTurns(s, j, id);
    var b: seq<Event>;
    b, u := SettleMessages(v, j, id);
    LeadsTogether(s, a, v, b, u);
    NothingAwaited(u);
    es := a + b;
  }

  lemma NothingAwaited(s: System)
    requires s.disposal.Draining? && s.toController == [] && NoneEnds(s.toBrowser)
    ensures Enabled(s, DisposeNext)
  {
  }

  /** A run that aborts the disposal, in which nobody suspends and no gate is armed. */
  ghost predicate Aborts(s: System, es: seq<Event>) { Legal(s, es) && Run(s, es).disposal == Closed(true) && Calm(es) }

  lemma AbortsOn(s: System, e: Event, rest: seq<Event>)
    requires Enabled(s, e) && e != Suspend && !e.ArmGate? && Aborts(Next(s, e), rest)
    ensures Aborts(s, [e] + rest)
  {
    RunCons(s, e, rest);
  }

  lemma AbortsLater(s: System, first: seq<Event>, u: System, rest: seq<Event>)
    requires Leads(s, first, u) && Aborts(u, rest)
    ensures Aborts(s, first + rest)
  {
    RunAppend(s, first, rest);
  }

  lemma AbortsAtEnd(s: System) returns (es: seq<Event>)
    requires Inv(s) && s.disposal.Draining? && EndAhead(s)
    ensures Aborts(s, es)
  {
    var u: System;
    es, u := GoToEnd(s);
  }

  /** Gate after gate is drained, until the one that holds something late aborts the disposal. */
  lemma {:induction false} HeldAbort(s: System, j: nat, id: RequestId) returns (es: seq<Event>)
    requires Inv(s) && Carrying(s, j, id) && s.disposal.Draining?
    ensures Aborts(s, es)
    decreases |s.ctl.gates| - s.disposal.next, 1
  {
    var first, u := Settle(s, j, id);
    var rest := DrainAbort(u, j, id);
    AbortsLater(s, first, u, rest);
    es := first + rest;
  }

  lemma {:induction false} DrainAbort(s: System, j: nat, id: RequestId) returns (es: seq<Event>)
    requires s.disposal.Draining? && Enabled(s, DisposeNext) && Carrying(s, j, id) && Inv(s)
    ensures Aborts(s, es)
    decreases |s.ctl.gates| - s.disposal.next, 0
  {
    var t := Next(s, DisposeNext);
    DrainCarries(s, j, id);
    if EndAhead(t) { es := AbortsAtEnd(t); } else { es := HeldAbort(t, j, id); }
    AbortsOn(s, DisposeNext, es);
    es := [DisposeNext] + es;
  }

  lemma DrainCarries(s: System, j: nat, id: RequestId)
    requires s.disposal.Draining? && Enabled(s, DisposeNext) && Carrying(s, j, id) && Inv(s)
    ensures s.disposal.next < |s.ctl.gates|
    ensures var t := Next(s, DisposeNext);
            && Inv(t) && t.disposal == Draining(s.disposal.next + 1) && |t.ctl.gates| == |s.ctl.gates|
            && (EndAhead(t) || Carrying(t, j, id))
  {
    assert !s.ctl.gates[j].released;
    DrainSeals(s);
    StepFollows(s, DisposeNext);
    DrainSendsNoDisable(s);
    if j == s.disposal.next {
      assert HoldsLate(s, j);
    } else {
      DrainLeaves(s, j);
      CarryLate(s, Next(s, DisposeNext), j, id);
    }
  }

  lemma DrainLeaves(s: System, j: nat)
    requires Enabled(s, DisposeNext) && s.disposal.next < |s.ctl.gates| && j < |s.ctl.gates| && j != s.disposal.next
    ensures |Next(s, DisposeNext).ctl.gates| == |s.ctl.gates| && Next(s, DisposeNext).ctl.gates[j] == s.ctl.gates[j]
  {
  }

  /** Also if the disposal has not begun. */
  lemma HeldLateAborts(s: System, j: nat, id: RequestId) returns (es: seq<Event>)
    requires Inv(s) && Carrying(s, j, id) && Unfinished(s.disposal)
    ensures Aborts(s, es)
  {
    if s.disposal == Live {
      var t := Next(s, Dispose);
      StepKeeps(s, Dispose);
      EndStep(s, Dispose);
      var rest := HeldAbort(t, j, id);
      AbortsOn(s, Dispose, rest);
      es := [Dispose] + rest;
    } else {
      es := HeldAbort(s, j, id);
    }
  }

  /** A late pause in the inbox is caught by a gate armed for it. */
  lemma PauseAborts(s: System, id: RequestId) returns (es: seq<Event>)
    requires Inv(s) && Unfinished(s.disposal) && !EndAhead(s) && LateOpen(s, id) && s.reqs[id].place == Inbox
    ensures Legal(s, es) && Run(s, es).disposal == Closed(true) && Suspend !in es
  {
    assert Announced(s.toController, id);
    var k: nat :| k < |s.toController| && s.toController[k].Pausing? && s.toController[k].id == id;
    var first, u, h := ArmAndCatch(s, k);
    CaughtLate(s, u, h, id);
    var rest := HeldLateAborts(u, h, id);
    RunAppend(s, first, rest);
    es := first + rest;
  }

  lemma CaughtLate(s: System, u: System, h: nat, id: RequestId)
    requires Caught(s, u, h, id) && Late(s, id)
    ensures Late(u, id)
  {
    assert forall i :: 0 <= i < |s.toBrowser| ==> u.toBrowser[i] == s.toBrowser[i];
  }

  /** A request begins once interception is on, ahead of the disable. */
  lemma CrossingAborts(s: System) returns (es: seq<Event>)
    requires Inv(s) && Unfinished(s.disposal) && !EndAhead(s) && Crossing(s)
    ensures Legal(s, es) && Run(s, es).disposal == Closed(true) && Suspend !in es
  {
    var k: nat :| k < |s.toBrowser| && s.toBrowser[k].command == FetchDisable && OnBefore(s, k);
    var first, u, n := TurnOn(s, k);
    assert u.toBrowser[k - n].command == FetchDisable;
    var rest := BeginAborts(u);
    RunAppend(s, first, rest);
    es := first + rest;
  }

  lemma BeginAborts(s: System) returns (es: seq<Event>)
    requires Inv(s) && Unfinished(s.disposal) && !EndAhead(s) && s.fetchOn && DisableBefore(s.toBrowser, |s.toBrowser|)
    ensures Legal(s, es) && Run(s, es).disposal == Closed(true) && Suspend !in es
  {
    var e := Intercept(s);
    var rest := PauseAborts(Next(s, e), e.id);
    RunCons(s, e, rest);
    es := [e] + rest;
  }

  lemma AbortRun(s: System) returns (es: seq<Event>)
    requires Inv(s) && Unfinished(s.disposal) && AbortAhead(s)
    ensures Legal(s, es) && Run(s, es).disposal == Closed(true) && Suspend !in es
  {
    if EndAhead(s) {
      var u: System;
      EndIsAwaited(s);
      es, u := GoToEnd(s);
    } else if id :| LateOpen(s, id) {
      if s.reqs[id].place.InGate? {
        es := HeldLateAborts(s, s.reqs[id].place.gate, id);
      } else {
        es := PauseAborts(s, id);
      }
    } else {
      es := CrossingAborts(s);
    }
  }

  /** From any state before the disposal is through with its gates, its call included: if
      nobody suspends from now on, then no run aborts it, arming included, if and only if
      the abortion is not sealed already, no request that a gate holds or may catch is
      late, and no pause can come in ahead of a disable that is on its way. */
  lemma AbortedIff(s: System)
    requires Reachable(s) && Unfinished(s.disposal)
    ensures (forall es :: Legal(s, es) && Suspend !in es ==> Run(s, es).disposal != Closed(true)) <==> !AbortAhead(s)
  {
    ReachableInv(s);
    if AbortAhead(s) {
      var es := AbortRun(s);
      assert Legal(s, es) && Suspend !in es && Run(s, es).disposal == Closed(true);
    } else {
      forall es | Legal(s, es) && Suspend !in es ensures Run(s, es).disposal != Closed(true) { NeverAborted(s, es); }
    }
  }

  /** Everything that a gate holds has paused since interception was last switched off. */
  ghost predicate HeldInTime(s: System) {
    forall j: nat, id :: HeldBy(s, j, id) ==> id in s.reqs && s.reqs[id].epoch == s.disables
  }

  lemma NotAheadInTime(s: System)
    requires HeldOk(s.ctl.gates, s.reqs) && InboxOk(s.toController, s.reqs, false)
    requires s.toBrowser == [] && s.toController == [] && HeldInTime(s)
    ensures !AbortAhead(s)
  {
    if id :| LateOpen(s, id) {
      assert s.reqs[id].place == Inbox ==> Announced(s.toController, id);
      assert s.reqs[id].place.InGate? ==> HeldBy(s, s.reqs[id].place.gate, id);
    }
  }

  lemma InTimeNeverAborted(s: System, es: seq<Event>)
    requires Reachable(s) && Unfinished(s.disposal) && s.toBrowser == [] && s.toController == []
    requires HeldInTime(s) && Legal(s, es) && Calm(es)
    ensures Run(s, es).disposal != Closed(true)
  {
    ReachableInv(s);
    NotAheadInTime(s);
    NeverAborted(s, es);
  }

  lemma NotInTime(s: System, j: nat, id: RequestId) returns (es: seq<Event>)
    requires Reachable(s) && Unfinished(s.disposal) && s.toBrowser == [] && s.toController == []
    requires HeldBy(s, j, id) && !(id in s.reqs && s.reqs[id].epoch == s.disables)
    ensures Aborts(s, es)
  {
    ReachableInv(s);
    assert ReqOk(s.reqs[id], s.disables, s.fetchOn, s.forgets);
    assert Carrying(s, j, id);
    es := HeldLateAborts(s, j, id);
  }

  /** With nothing on the connection, and if nobody arms a gate or suspends from now on,
      no run aborts the disposal if and only if every request that a gate holds has
      paused since interception was last switched off. */
  lemma AbortedFromQuietIff(s: System)
    requires Reachable(s) && Unfinished(s.disposal) && s.toBrowser == [] && s.toController == []
    ensures (forall es :: Legal(s, es) && Calm(es) ==> Run(s, es).disposal != Closed(true))
            <==> HeldInTime(s)
  {
    if HeldInTime(s) {
      forall es | Legal(s, es) && Calm(es) ensures Run(s, es).disposal != Closed(true) { InTimeNeverAborted(s, es); }
    } else {
      var j: nat, id :| HeldBy(s, j, id) && !(id in s.reqs && s.reqs[id].epoch == s.disables);
      var es := NotInTime(s, j, id);
      assert Aborts(s, es);
    }
  }

  /** So a disposal that is called when no abortion is ahead, while nobody suspends or
      arms a gate, leaves nothing held, whatever else happens. */
  lemma CalmDisposalLeavesNothing(s: System, es: seq<Event>)
    requires Reachable(s) && s.disposal == Live && !AbortAhead(s) && Legal(s, es) && Calm(es)
    requires Run(s, es).disposal == Disabling || Run(s, es).disposal.Closed?
    ensures NothingHeld(Run(s, es)) && Run(s, es).disposal != Closed(true)
  {
    ReachableInv(s);
    NeverAborted(s, es);
    DisposeWithoutArming(s, es);
  }
}
