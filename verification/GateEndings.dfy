/**
 How a disposal of the gate controller comes to its end: by the final
 acknowledgement, or by the error of an answer of its own.  `EndAhead` says that one of
 them is sealed, as a message on its way back or as a command whose fate is settled;
 between the rounds of the disposal no step changes that (`EndStep`).  The second half
 builds runs on the connection: to a sealed end, to the moment when a gate catches a
 given pause, and to the moment when interception is on.
 */
module GateEndings {
  import opened Basics
  import opened GateProtocol
  import opened GateSystem
  import opened GateFrames
  import opened GateSteps
  import opened GateRuns
  import opened GateFates

  predicate Ends(origin: Origin) { origin == Disposing || origin == Teardown }

  /** The outcome of the command at place `i` will end the disposal. */
  ghost predicate WillEnd(s: System, i: nat)
    requires i < |s.toBrowser|
  {
    var x := s.toBrowser[i];
    || x.origin == Disposing
    || (x.origin == Teardown && IsAnswer(x.command) && x.command.id in s.reqs && Doomed(s, x.command.id, i))
  }

  ghost predicate EndIn(msgs: seq<Message>) { exists i :: 0 <= i < |msgs| && EndsIt(msgs[i]) }

  ghost predicate EndOut(s: System) { exists i: nat :: i < |s.toBrowser| && WillEnd(s, i) }

  /** The end is sealed: it is on the connection, there or back. */
  ghost predicate EndAhead(s: System) { EndIn(s.toController) || EndOut(s) }

  // -------- no step but the end itself changes what is sealed --------

  ghost predicate SameEpochs(s: System, t: System) {
    forall id :: id in s.reqs && s.reqs[id].place.Outbox? ==> id in t.reqs && t.reqs[id].epoch == s.reqs[id].epoch
  }

  lemma EndAppended(s: System, t: System)
    requires OutboxOk(s.toBrowser, s.reqs) && SameEpochs(s, t)
    requires s.toBrowser <= t.toBrowser && t.disables == s.disables
    requires forall i :: |s.toBrowser| <= i < |t.toBrowser| ==> !Ends(t.toBrowser[i].origin)
    ensures EndOut(t) <==> EndOut(s)
  {
    forall i: nat | i < |s.toBrowser| ensures WillEnd(t, i) <==> WillEnd(s, i) {
      assert t.toBrowser[i] == s.toBrowser[i];
      if IsAnswer(s.toBrowser[i].command) { AppendKeepsFate(s, t, i, s.toBrowser[i].command.id); }
    }
    if i: nat :| i < |t.toBrowser| && WillEnd(t, i) { assert i < |s.toBrowser| && WillEnd(s, i); }
    if i: nat :| i < |s.toBrowser| && WillEnd(s, i) { assert WillEnd(t, i); }
  }

  /** What the controller sends outside a disposal's own rounds. */
  predicate Harmless(e: Event, x: Sent) {
    !Ends(x.origin) && (x.command == FetchDisable ==> e == Suspend)
  }

  ghost predicate SendsHarmless(s: System, t: System, e: Event) {
    && s.toBrowser <= t.toBrowser && t.disables == s.disables
    && forall i :: |s.toBrowser| <= i < |t.toBrowser| ==> Harmless(e, t.toBrowser[i])
  }

  predicate Ending(s: System, e: Event) { e.Deliver? && s.toController != [] && EndsIt(s.toController[0]) }

  lemma OthersSend(s: System, e: Event)
    requires Enabled(s, e) && e != BrowserTurn && e != DisposeNext && !Ending(s, e)
    ensures SendsHarmless(s, Next(s, e), e)
  {
    match e
    case Deliver(now) => DeliverSends(s.(toController := s.toController[1..]), s.toController[0], e);
    case FinishGate(j, fail) => FinishSends(s, j, fail, false, Caller, e);
    case ExpireGate(j) => FinishSends(s, j, false, true, Timer, e);
    case _ =>
  }

  lemma FinishSends(s: System, j: nat, fail: bool, late: bool, origin: Origin, e: Event)
    requires j < |s.ctl.gates| && !Ends(origin)
    ensures SendsHarmless(s, Perform(s, FinishOrExpire(s.ctl, j, fail, late), origin), e)
  {
  }

  lemma DeliverSends(s: System, m: Message, e: Event)
    requires e.Deliver? && !EndsIt(m)
    ensures SendsHarmless(s, Handle(s, m, e.now), e)
  {
  }

  /** Nothing else than a pause joins the inbox, and nothing that ends the disposal leaves it. */
  lemma OthersReceive(s: System, e: Event)
    requires Enabled(s, e) && e != BrowserTurn && e != DisposeNext && !Ending(s, e)
    ensures var t := Next(s, e);
            && t.fetchOn == s.fetchOn
            && t.disposal == (if e == Dispose && s.disposal == Live then Draining(0) else s.disposal)
            && (t.toController == s.toController
                || (e.Deliver? && t.toController == s.toController[1..])
                || (s.fetchOn && exists m: Message :: m.Pausing? && t.toController == s.toController + [m]))
  {
    match e
    case Begin(id, kind) =>
    case Arrive(id) =>
    case Deliver(now) => DeliverReceives(s.(toController := s.toController[1..]), s.toController[0], now);
    case _ =>
  }

  lemma DeliverReceives(s: System, m: Message, now: int)
    requires !EndsIt(m)
    ensures var t := Handle(s, m, now);
            t.toController == s.toController && t.disposal == s.disposal && t.fetchOn == s.fetchOn
  {
  }

  lemma EndInSame(msgs: seq<Message>, after: seq<Message>)
    requires after == msgs || (msgs != [] && !EndsIt(msgs[0]) && after == msgs[1..])
             || exists m: Message :: !EndsIt(m) && after == msgs + [m]
    ensures EndIn(after) <==> EndIn(msgs)
  {
    if i :| 0 <= i < |msgs| && EndsIt(msgs[i]) {
      assert after == msgs[1..] ==> i > 0 && after[i - 1] == msgs[i];
      assert msgs <= after ==> after[i] == msgs[i];
    }
    if i :| 0 <= i < |after| && EndsIt(after[i]) {
      assert msgs != [] && after == msgs[1..] ==> msgs[i + 1] == after[i];
    }
  }

  lemma OthersKeepEnd(s: System, e: Event)
    requires Inv(s) && Enabled(s, e) && e != BrowserTurn && e != DisposeNext && !Ending(s, e)
    ensures EndAhead(Next(s, e)) == EndAhead(s)
  {
    StepFollows(s, e);
    OthersSend(s, e);
    OthersReceive(s, e);
    EndKept(s, Next(s, e), e);
  }

  lemma EndKept(s: System, t: System, e: Event)
    requires OutboxOk(s.toBrowser, s.reqs) && Follows(s, t) && SendsHarmless(s, t, e)
    requires t.toController == s.toController
             || (s.toController != [] && !EndsIt(s.toController[0]) && t.toController == s.toController[1..])
             || exists m: Message :: m.Pausing? && t.toController == s.toController + [m]
    ensures EndAhead(t) == EndAhead(s)
  {
    EndInSame(s.toController, t.toController);
    EndAppended(s, t);
  }

  /** The browser's turn sends one outcome back, which ends the disposal exactly if its command was to. */
  lemma TurnReplies(s: System)
    requires OutboxOk(s.toBrowser, s.reqs) && ReqsOk(s.reqs, s.disables, s.fetchOn, s.forgets)
    requires OriginsOk(s.toBrowser, s.toController) && s.toBrowser != [] && !s.disposal.Closed?
    ensures var t := Next(s, BrowserTurn);
            && t.ctl == s.ctl && t.disposal == s.disposal && t.toBrowser == s.toBrowser[1..]
            && |t.toController| == |s.toController| + 1
            && var m := t.toController[|s.toController|];
               && t.toController == s.toController + [m] && m.Reply? && m.origin == s.toBrowser[0].origin
               && (EndsIt(m) <==> WillEnd(s, 0))
  {
    assert OriginFits(s.toBrowser[0]);
    if IsAnswer(s.toBrowser[0].command) {
      AnswerEffect(s);
      assert ReqOk(s.reqs[s.toBrowser[0].command.id], s.disables, s.fetchOn, s.forgets);
    } else {
      SwitchEffect(s);
    }
  }

  lemma TurnFetch(s: System)
    requires s.toBrowser != []
    ensures Next(s, BrowserTurn).fetchOn
            == (s.toBrowser[0].command == FetchEnable || (s.fetchOn && s.toBrowser[0].command != FetchDisable))
  {
  }

  lemma TurnShifts(s: System, i: nat)
    requires OutboxOk(s.toBrowser, s.reqs) && ReqsOk(s.reqs, s.disables, s.fetchOn, s.forgets)
    requires 0 < i < |s.toBrowser| && Next(s, BrowserTurn).toBrowser == s.toBrowser[1..]
    ensures WillEnd(Next(s, BrowserTurn), i - 1) <==> WillEnd(s, i)
  {
    var x := s.toBrowser[i];
    assert Next(s, BrowserTurn).toBrowser[i - 1] == x;
    if IsAnswer(x.command) {
      assert ReqOk(s.reqs[x.command.id], s.disables, s.fetchOn, s.forgets);
      TurnEpoch(s, x.command.id);
      PopKeepsFate(s, Next(s, BrowserTurn), i, x.command.id);
    }
  }

  lemma TurnKeepsEnd(s: System)
    requires OutboxOk(s.toBrowser, s.reqs) && ReqsOk(s.reqs, s.disables, s.fetchOn, s.forgets)
    requires OriginsOk(s.toBrowser, s.toController) && s.toBrowser != [] && !s.disposal.Closed?
    ensures EndAhead(Next(s, BrowserTurn)) == EndAhead(s)
  {
    var t := Next(s, BrowserTurn);
    TurnReplies(s);
    forall i: nat | 0 < i < |s.toBrowser| ensures WillEnd(t, i - 1) <==> WillEnd(s, i) { TurnShifts(s, i); }
    EndShifted(s, t);
  }

  lemma EndShifted(s: System, t: System)
    requires s.toBrowser != [] && t.toBrowser == s.toBrowser[1..]
    requires |t.toController| == |s.toController| + 1 && s.toController == t.toController[..|s.toController|]
    requires EndsIt(t.toController[|s.toController|]) <==> WillEnd(s, 0)
    requires forall i: nat :: 0 < i < |s.toBrowser| ==> (WillEnd(t, i - 1) <==> WillEnd(s, i))
    ensures EndAhead(t) == EndAhead(s)
  {
    if i :| 0 <= i < |s.toController| && EndsIt(s.toController[i]) { assert EndsIt(t.toController[i]); }
    if i: nat :| i < |s.toBrowser| && WillEnd(s, i) {
      if i > 0 { assert WillEnd(t, i - 1); }
    }
    if i: nat :| i < |t.toBrowser| && WillEnd(t, i) { assert WillEnd(t, i + 1 - 1) && WillEnd(s, i + 1); }
    if i :| 0 <= i < |t.toController| && EndsIt(t.toController[i]) {
      assert i < |s.toController| ==> EndsIt(s.toController[i]);
    }
  }

  /** Handling the end closes the connection: an abortion if gates are still being drained. */
  lemma EndingCloses(s: System, now: int)
    requires DisposalOk(s) && !s.disposal.Closed? && Ending(s, Deliver(now))
    ensures Next(s, Deliver(now)).disposal == Closed(s.disposal.Draining?) && Next(s, Deliver(now)).ctl.gates == s.ctl.gates
  {
    var m := s.toController[0];
    assert FromOrigin(m, m.origin) && Pending(s.toBrowser, s.toController, m.origin);
  }

  /** The end is sealed, or not, whatever happens between the rounds of a disposal. */
  lemma EndStep(s: System, e: Event)
    requires Inv(s) && !s.disposal.Closed? && Enabled(s, e) && e != DisposeNext
    ensures var t := Next(s, e);
            if Ending(s, e) then t.disposal == Closed(s.disposal.Draining?)
            else && t.disposal == (if e == Dispose && s.disposal == Live then Draining(0) else s.disposal)
                 && (EndAhead(t) == EndAhead(s))
  {
    if e == BrowserTurn {
      TurnReplies(s);
      TurnKeepsEnd(s);
    } else if Ending(s, e) {
      EndingCloses(s, e.now);
    } else {
      OthersReceive(s, e);
      OthersKeepEnd(s, e);
    }
  }

  /** While the end is sealed the disposal waits for it. */
  lemma EndIsAwaited(s: System)
    requires DisposalOk(s) && !s.disposal.Closed? && EndAhead(s)
    ensures (s.disposal.Draining? || s.disposal == Disabling) && !Enabled(s, DisposeNext)
  {
    if i :| 0 <= i < |s.toController| && EndsIt(s.toController[i]) {
      assert FromOrigin(s.toController[i], s.toController[i].origin);
      assert Pending(s.toBrowser, s.toController, s.toController[i].origin);
    } else {
      var i: nat :| i < |s.toBrowser| && WillEnd(s, i);
      assert Pending(s.toBrowser, s.toController, s.toBrowser[i].origin);
    }
  }

  lemma {:induction false} EndRun(s: System, es: seq<Event>)
    requires Inv(s) && !s.disposal.Closed? && Legal(s, es) && DisposeNext !in es && !Run(s, es).disposal.Closed?
    ensures EndAhead(Run(s, es)) == EndAhead(s)
    decreases |es|
  {
    if es != [] {
      EndStep(s, es[0]);
      StepKeeps(s, es[0]);
      if Ending(s, es[0]) { ClosedStays(Next(s, es[0]), es[1..]); } else { EndRun(Next(s, es[0]), es[1..]); }
    }
  }

  /** And whatever happens, the connection is closed that way or still waiting for it. */
  lemma {:induction false} EndIsSealed(s: System, es: seq<Event>)
    requires Inv(s) && !s.disposal.Closed? && EndAhead(s) && Legal(s, es)
    ensures var u := Run(s, es);
            || u.disposal == Closed(s.disposal.Draining?)
            || (u.disposal == s.disposal && EndAhead(u) && Inv(u))
    decreases |es|
  {
    if es != [] {
      EndIsAwaited(s);
      EndStep(s, es[0]);
      StepKeeps(s, es[0]);
      if Ending(s, es[0]) {
        ClosedStays(Next(s, es[0]), es[1..]);
      } else {
        EndIsSealed(Next(s, es[0]), es[1..]);
      }
    }
  }

  lemma ClosedStep(s: System, e: Event)
    requires DisposalOk(s) && s.disposal.Closed? && Enabled(s, e)
    ensures Next(s, e).disposal == s.disposal && Next(s, e).ctl.gates == s.ctl.gates
  {
  }

  lemma {:induction false} ClosedStays(s: System, es: seq<Event>)
    requires Inv(s) && s.disposal.Closed? && Legal(s, es)
    ensures Run(s, es).disposal == s.disposal && Run(s, es).ctl.gates == s.ctl.gates
    decreases |es|
  {
    if es != [] {
      StepKeeps(s, es[0]);
      ClosedStep(s, es[0]);
      ClosedStays(Next(s, es[0]), es[1..]);
    }
  }

  // -------- what is held stays held while messages come and go --------

  /** Open gates stay open, and hold what they held. */
  ghost predicate KeepsHolding(before: seq<Gate>, after: seq<Gate>) {
    && |after| == |before|
    && forall j :: 0 <= j < |before| ==>
         && SameSort(after[j], before[j]) && after[j].released == before[j].released
         && forall id :: id in before[j].ids ==> id in after[j].ids
  }

  lemma KeepsHoldingTransitive(a: seq<Gate>, b: seq<Gate>, c: seq<Gate>)
    requires KeepsHolding(a, b) && KeepsHolding(b, c)
    ensures KeepsHolding(a, c)
  {
    forall j | 0 <= j < |a|
      ensures SameSort(c[j], a[j]) && c[j].released == a[j].released && forall id :: id in a[j].ids ==> id in c[j].ids
    {
      assert SameSort(b[j], a[j]) && SameSort(c[j], b[j]);
    }
  }

  lemma HandleHolds(s: System, m: Message, now: int)
    ensures KeepsHolding(s.ctl.gates, Handle(s, m, now).ctl.gates)
  {
    match m
    case Pausing(id, kind, stage) => PauseHolds(s, id, kind, stage, now);
    case Reply(origin, ok) => ReplyFrame(s, origin, ok);
  }

  lemma PauseHolds(s: System, id: RequestId, kind: Option<Kind>, stage: Stage, now: int)
    ensures KeepsHolding(s.ctl.gates, HandlePause(s, id, kind, stage, now).ctl.gates)
  {
    if Wanted(s.ctl.gates, kind, stage) {
      HoldKeepsHolding(s.ctl.gates, FirstOpen(s.ctl.gates, kind.value, stage), id, now);
    } else {
      PassTurn(s.ctl, id, kind, stage, now);
    }
  }

  lemma HoldKeepsHolding(gates: seq<Gate>, j: nat, id: RequestId, now: int)
    requires j < |gates|
    ensures KeepsHolding(gates, gates[j := Hold(gates[j], id, now)])
  {
  }

  /** One step on the connection, which is either the browser's or the controller's. */
  predicate Moving(s: System, e: Event) {
    (e == BrowserTurn && s.toBrowser != []) || (e == Deliver(0) && s.toController != [])
  }

  lemma MovingHolds(s: System, e: Event)
    requires Moving(s, e)
    ensures KeepsHolding(s.ctl.gates, Next(s, e).ctl.gates)
  {
    if e == Deliver(0) {
      HandleHolds(s.(toController := s.toController[1..]), s.toController[0], 0);
    } else {
      TurnKeepsControl(s);
    }
  }

  lemma TurnKeepsControl(s: System)
    requires s.toBrowser != []
    ensures Next(s, BrowserTurn).ctl == s.ctl && Next(s, BrowserTurn).disposal == s.disposal
  {
  }

  /** A run on the connection, in which nobody arms a gate or calls anything. */
  predicate Quietly(es: seq<Event>) { forall e :: e in es ==> e == BrowserTurn || e == Deliver(0) }

  /** A quiet run from `s` to `u`, after which the same is held and more. */
  ghost predicate Leads(s: System, es: seq<Event>, u: System) {
    Quietly(es) && Legal(s, es) && Run(s, es) == u && KeepsHolding(s.ctl.gates, u.ctl.gates)
  }

  lemma LeadsNowhere(s: System)
    ensures Leads(s, [], s)
  {
  }

  lemma LeadsOn(s: System, e: Event, rest: seq<Event>, u: System)
    requires Moving(s, e) && Leads(Next(s, e), rest, u)
    ensures Leads(s, [e] + rest, u)
  {
    MovingHolds(s, e);
    KeepsHoldingTransitive(s.ctl.gates, Next(s, e).ctl.gates, u.ctl.gates);
    RunCons(s, e, rest);
  }

  // -------- a sealed end comes --------

  /** A message is handled that does not end the disposal. */
  lemma DeliverOn(s: System)
    requires Inv(s) && !s.disposal.Closed? && s.toController != [] && !EndsIt(s.toController[0])
    ensures var t := Next(s, Deliver(0));
            && Inv(t) && t.disposal == s.disposal && t.toController == s.toController[1..] && (EndAhead(t) == EndAhead(s))
            && SendsHarmless(s, t, Deliver(0))
  {
    StepKeeps(s, Deliver(0));
    EndStep(s, Deliver(0));
    OthersSend(s, Deliver(0));
    DeliverReceives(s.(toController := s.toController[1..]), s.toController[0], 0);
  }

  lemma {:induction false} HandleToEnd(s: System, k: nat) returns (es: seq<Event>, u: System)
    requires Inv(s) && !s.disposal.Closed? && k < |s.toController| && EndsIt(s.toController[k])
    ensures Leads(s, es, u) && u.disposal == Closed(s.disposal.Draining?)
    decreases k, 1
  {
    if EndsIt(s.toController[0]) { es, u := HandleEnd(s); } else { es, u := HandleLater(s, k); }
  }

  lemma HandleEnd(s: System) returns (es: seq<Event>, u: System)
    requires DisposalOk(s) && !s.disposal.Closed? && s.toController != [] && EndsIt(s.toController[0])
    ensures Leads(s, es, u) && u.disposal == Closed(s.disposal.Draining?)
  {
    EndingCloses(s, 0);
    u := Next(s, Deliver(0));
    LeadsNowhere(u);
    LeadsOn(s, Deliver(0), [], u);
    es := [Deliver(0)] + [];
  }

  lemma {:induction false} HandleLater(s: System, k: nat) returns (es: seq<Event>, u: System)
    requires Inv(s) && !s.disposal.Closed? && k < |s.toController| && EndsIt(s.toController[k]) && !EndsIt(s.toController[0])
    ensures Leads(s, es, u) && u.disposal == Closed(s.disposal.Draining?)
    decreases k, 0
  {
    DeliverOn(s);
    es, u := HandleToEnd(Next(s, Deliver(0)), k - 1);
    LeadsOn(s, Deliver(0), es, u);
    es := [Deliver(0)] + es;
  }

  lemma {:induction false} GoToEnd(s: System) returns (es: seq<Event>, u: System)
    requires Inv(s) && !s.disposal.Closed? && EndAhead(s)
    ensures Leads(s, es, u) && u.disposal == Closed(s.disposal.Draining?)
    decreases |s.toBrowser|
  {
    if k: nat :| k < |s.toController| && EndsIt(s.toController[k]) {
      es, u := HandleToEnd(s, k);
    } else {
      TurnOnward(s);
      es, u := GoToEnd(Next(s, BrowserTurn));
      LeadsOn(s, BrowserTurn, es, u);
      es := [BrowserTurn] + es;
    }
  }

  lemma TurnOnward(s: System)
    requires Inv(s) && !s.disposal.Closed? && s.toBrowser != []
    ensures var t := Next(s, BrowserTurn);
            Inv(t) && t.disposal == s.disposal && t.toBrowser == s.toBrowser[1..] && (EndAhead(t) == EndAhead(s))
  {
    StepKeeps(s, BrowserTurn);
    TurnReplies(s);
    TurnKeepsEnd(s);
  }

  // -------- a pause is caught --------

  predicate Relevant(m: Message) { m.Pausing? && m.kind.Some? }

  /** The `k`-th message is one that gate `j` is open for, and no end comes before it. */
  ghost predicate Catchable(s: System, k: nat, j: nat) {
    && !s.disposal.Closed? && k < |s.toController| && Relevant(s.toController[k])
    && (forall i :: 0 <= i < k ==> !EndsIt(s.toController[i]))
    && j < |s.ctl.gates| && Open(s.ctl.gates[j], s.toController[k].kind.value, s.toController[k].stage)
  }

  lemma HandledOne(s: System, t: System, k: nat, j: nat)
    requires Catchable(s, k, j) && k > 0
    requires t.disposal == s.disposal && t.toController == s.toController[1..] && KeepsHolding(s.ctl.gates, t.ctl.gates)
    ensures Catchable(t, k - 1, j) && t.toController[k - 1] == s.toController[k]
  {
    assert forall i :: 0 <= i < |t.toController| ==> t.toController[i] == s.toController[i + 1];
    assert SameSort(t.ctl.gates[j], s.ctl.gates[j]);
  }

  /** The inbox stays in order while messages are handled. */
  lemma DeliverInbox(s: System)
    requires InboxOk(s.toController, s.reqs, false) && s.toController != [] && !EndsIt(s.toController[0])
    ensures var t := Next(s, Deliver(0));
            && t.toController == s.toController[1..] && t.disposal == s.disposal && InboxOk(t.toController, t.reqs, false)
            && SameAges(s, t)
  {
    var m := s.toController[0];
    DeliverReceives(s.(toController := s.toController[1..]), m, 0);
    if m.Reply? {
      ReplyFrame(s.(toController := s.toController[1..]), m.origin, m.ok);
      InboxPop(s.toController, s.reqs, s.reqs);
    } else {
      PauseInbox(s, m.id, m.stage);
    }
  }

  ghost predicate SameAges(s: System, t: System) {
    forall id :: id in s.reqs ==> id in t.reqs && t.reqs[id].epoch == s.reqs[id].epoch
  }

  lemma PauseInbox(s: System, id: RequestId, stage: Stage)
    requires InboxOk(s.toController, s.reqs, false) && Handling(s, id, stage)
    ensures InboxOk(s.toController[1..], Next(s, Deliver(0)).reqs, false) && SameAges(s, Next(s, Deliver(0)))
  {
    if Wanted(s.ctl.gates, s.reqs[id].kind, stage) { HoldEffect(s, id, stage, 0); } else { PassEffect(s, id, stage, 0); }
    var after := Next(s, Deliver(0)).reqs;
    assert after == s.reqs[id := after[id]] && after[id].place != Inbox && after[id].epoch == s.reqs[id].epoch;
    OneLeaves(s.toController, s.reqs, id, after[id]);
  }

  lemma OneLeaves(msgs: seq<Message>, reqs: Requests, id: RequestId, q: Req)
    requires InboxOk(msgs, reqs, false) && msgs != [] && msgs[0].Pausing? && msgs[0].id == id && q.place != Inbox
    ensures InboxOk(msgs[1..], reqs[id := q], false)
  {
    InboxPop(msgs, reqs, reqs[id := q]);
  }

  /** Messages are handled until a gate has caught the `k`-th. */
  lemma {:induction false} CatchIt(s: System, k: nat, j: nat) returns (es: seq<Event>, u: System, h: nat)
    requires InboxOk(s.toController, s.reqs, false) && Catchable(s, k, j)
    ensures Leads(s, es, u) && Caught(s, u, h, s.toController[k].id)
    decreases k, 1
  {
    if k == 0 { es, u, h := CatchFirst(s, j); } else { es, u, h := CatchLater(s, k, j); }
  }

  /** In state `u` gate `h` has caught the request, whose pause is still the one it was in
      `s`; nothing has ended meanwhile, and the browser has not had a turn. */
  ghost predicate Caught(s: System, u: System, h: nat, id: RequestId) {
    && u.disposal == s.disposal && s.toBrowser <= u.toBrowser && u.disables == s.disables && HeldBy(u, h, id)
    && id in s.reqs && id in u.reqs && u.reqs[id].epoch == s.reqs[id].epoch
  }

  lemma CatchFirst(s: System, j: nat) returns (es: seq<Event>, u: System, h: nat)
    requires InboxOk(s.toController, s.reqs, false) && Catchable(s, 0, j)
    ensures Leads(s, es, u) && Caught(s, u, h, s.toController[0].id)
  {
    DeliverInbox(s);
    OthersSend(s, Deliver(0));
    u := Next(s, Deliver(0));
    h := CaughtNow(s, j);
    LeadsNowhere(u);
    LeadsOn(s, Deliver(0), [], u);
    es := [Deliver(0)] + [];
  }

  lemma {:induction false} CatchLater(s: System, k: nat, j: nat) returns (es: seq<Event>, u: System, h: nat)
    requires InboxOk(s.toController, s.reqs, false) && Catchable(s, k, j) && k > 0
    ensures Leads(s, es, u) && Caught(s, u, h, s.toController[k].id)
    decreases k, 0
  {
    var t := Next(s, Deliver(0));
    DeliverInbox(s);
    OthersSend(s, Deliver(0));
    MovingHolds(s, Deliver(0));
    HandledOne(s, t, k, j);
    es, u, h := CatchIt(t, k - 1, j);
    LeadsOn(s, Deliver(0), es, u);
    es := [Deliver(0)] + es;
  }

  lemma CaughtNow(s: System, j: nat) returns (h: nat)
    requires InboxOk(s.toController, s.reqs, false) && s.toController != [] && Relevant(s.toController[0])
    requires j < |s.ctl.gates| && Open(s.ctl.gates[j], s.toController[0].kind.value, s.toController[0].stage)
    ensures HeldBy(Next(s, Deliver(0)), h, s.toController[0].id)
  {
    var id, stage := s.toController[0].id, s.toController[0].stage;
    assert Handling(s, id, stage);
    OpenIsWanted(s.ctl.gates, s.reqs[id].kind.value, stage, j);
    HoldEffect(s, id, stage, 0);
    h := FirstOpen(s.ctl.gates, s.reqs[id].kind.value, stage);
  }

  /** A gate is armed for the `k`-th message, and catches it. */
  lemma ArmAndCatch(s: System, k: nat) returns (es: seq<Event>, u: System, h: nat)
    requires Inv(s) && !s.disposal.Closed? && k < |s.toController| && Relevant(s.toController[k])
    requires forall i :: 0 <= i < k ==> !EndsIt(s.toController[i])
    ensures Legal(s, es) && Run(s, es) == u && Suspend !in es && DisposeNext !in es
    ensures Inv(u) && (EndAhead(u) == EndAhead(s)) && Caught(s, u, h, s.toController[k].id)
  {
    var e := ArmGate(s.toController[k].kind.value, s.toController[k].stage);
    var rest: seq<Event>;
    Armed(s, e, k);
    rest, u, h := CatchIt(Next(s, e), k, |s.ctl.gates|);
    es := ArmBefore(s, e, rest, u);
    RunKeeps(s, es);
    EndRun(s, es);
  }

  lemma ArmBefore(s: System, e: Event, rest: seq<Event>, u: System) returns (es: seq<Event>)
    requires e.ArmGate? && Leads(Next(s, e), rest, u)
    ensures Legal(s, es) && Run(s, es) == u && Suspend !in es && DisposeNext !in es
  {
    RunCons(s, e, rest);
    es := [e] + rest;
    assert forall x :: x in es ==> x == e || x == BrowserTurn || x == Deliver(0);
  }

  lemma Armed(s: System, e: Event, k: nat)
    requires DisposalOk(s) && !s.disposal.Closed? && k < |s.toController| && Relevant(s.toController[k])
    requires forall i :: 0 <= i < k ==> !EndsIt(s.toController[i])
    requires e == ArmGate(s.toController[k].kind.value, s.toController[k].stage)
    ensures Next(s, e) == s.(ctl := Next(s, e).ctl) && Catchable(Next(s, e), k, |s.ctl.gates|)
  {
  }

  // -------- the browser goes on until interception is on --------

  /** Interception is on at some time before command `k` is processed. */
  ghost predicate OnBefore(s: System, k: nat)
    requires k <= |s.toBrowser|
  {
    s.fetchOn || exists i :: 0 <= i < k && s.toBrowser[i].command == FetchEnable
  }

  lemma {:induction false} TurnOn(s: System, k: nat) returns (es: seq<Event>, u: System, n: nat)
    requires Inv(s) && !s.disposal.Closed? && k <= |s.toBrowser| && OnBefore(s, k)
    requires forall i :: 0 <= i < k ==> !WillEnd(s, i)
    ensures Leads(s, es, u) && Inv(u) && u.disposal == s.disposal && (EndAhead(u) == EndAhead(s)) && u.fetchOn
    ensures EndIn(u.toController) ==> EndIn(s.toController)
    ensures n <= k && u.toBrowser == s.toBrowser[n..]
    decreases k
  {
    if s.fetchOn {
      es, u, n := [], s, 0;
      LeadsNowhere(s);
    } else {
      TurnCloser(s, k);
      TurnOnward(s);
      es, u, n := TurnOn(Next(s, BrowserTurn), k - 1);
      assert s.toBrowser[1..][n..] == s.toBrowser[n + 1..];
      n := n + 1;
      LeadsOn(s, BrowserTurn, es, u);
      es := [BrowserTurn] + es;
    }
  }

  lemma TurnCloser(s: System, k: nat)
    requires OutboxOk(s.toBrowser, s.reqs) && ReqsOk(s.reqs, s.disables, s.fetchOn, s.forgets)
    requires OriginsOk(s.toBrowser, s.toController) && !s.disposal.Closed?
    requires 0 < k <= |s.toBrowser| && OnBefore(s, k) && !s.fetchOn && forall i :: 0 <= i < k ==> !WillEnd(s, i)
    ensures var t := Next(s, BrowserTurn);
            && t.toBrowser == s.toBrowser[1..] && OnBefore(t, k - 1)
            && (forall i :: 0 <= i < k - 1 ==> !WillEnd(t, i))
            && (EndIn(t.toController) ==> EndIn(s.toController))
  {
    var t := Next(s, BrowserTurn);
    TurnReplies(s);
    TurnFetch(s);
    EndInSame(s.toController, t.toController);
    forall i: nat | i < k - 1 ensures !WillEnd(t, i) { TurnShifts(s, i + 1); }
    var i :| 0 <= i < k && s.toBrowser[i].command == FetchEnable;
    assert i > 0 ==> t.toBrowser[i - 1].command == FetchEnable;
  }

  ghost function Above(ids: set<RequestId>): (m: nat)
    ensures forall id :: id in ids ==> id < m
  {
    if ids == {} then 0
    else var id :| id in ids;
         var m := Above(ids - {id});
         assert forall other :: other in ids ==> other == id || other in ids - {id};
         if id < m then m else id + 1
  }

  /** A request the browser intercepts. */
  lemma Intercept(s: System) returns (e: Event)
    requires Inv(s) && !s.disposal.Closed? && s.fetchOn
    ensures e.Begin? && Enabled(s, e) && Inv(Next(s, e)) && (EndAhead(Next(s, e)) == EndAhead(s))
    ensures var t := Next(s, e);
            && t == s.(reqs := t.reqs, toController := s.toController + [Pausing(e.id, Some(Creation), Request)])
            && e.id in t.reqs && t.reqs[e.id] == Starting(Some(Creation), s.disables)
  {
    var id := Above(s.reqs.Keys);
    e := Begin(id, Some(Creation));
    assert id !in s.reqs.Keys;
    StepKeeps(s, e);
    EndStep(s, e);
  }
}
