/**
 Runs of the gate controller and the browser that show what does not hold: a response
 passes an open gate after a suspend, a pause that crosses a suspend is answered too
 late and the controller fails for good, a gate holds a request that the browser has
 let go long ago, and a disposal is aborted by an answer of its own and leaves other
 gates holding.  Each run starts from a fresh controller, for either kind of browser.
 */
module GateWitnesses {
  import opened Basics
  import opened GateProtocol
  import opened GateSystem
  import opened GateSteps
  import opened GateRuns

  /** A paused request as the browser announces it. */
  function Announcement(id: RequestId, kind: Option<Kind>): Message { Pausing(id, kind, Request) }

  /** A fresh system with these gates armed. */
  function Armed(forgets: bool, gates: seq<Gate>): System {
    Start(forgets).(ctl := Start(forgets).ctl.(gates := gates))
  }

  /** A request has been let go on under gate 0 and flies, and everything is quiet. */
  ghost predicate FliesUnderGate(s: System) {
    && s.ctl.gates == [NewGate(Creation, Response)] && s.ctl.fetchEnabled && !s.ctl.disposed && !s.ctl.failure
    && s.toBrowser == [] && s.disposal == Live && s.fetchOn
    && 7 in s.reqs && s.reqs[7].phase == Flying(true) && s.reqs[7].hits == 1 && s.reqs[7].asked && s.reqs[7].armed == 1
  }

  lemma FlyUnderGate(forgets: bool) returns (es: seq<Event>)
    ensures Legal(Start(forgets), es) && FliesUnderGate(Run(Start(forgets), es))
  {
    var s0 := Start(forgets);
    var g := NewGate(Creation, Response);
    var s1 := Armed(forgets, [g]);
    assert Next(s0, ArmGate(Creation, Response)) == s1;
    var s2 := Next(s1, Begin(7, Some(Creation)));
    assert Handling(s2, 7, Request) && !Wanted(s2.ctl.gates, Some(Creation), Request);
    PassEffect(s2, 7, Request, 0);
    var s3 := Next(s2, Deliver(0));
    assert Open(s2.ctl.gates[0], Creation, Response);
    assert s3.toBrowser == [Sent(ContinueRequest(7, true), Arrival)];
    es := [];
    RunThen(s0, es, ArmGate(Creation, Response)); es := es + [ArmGate(Creation, Response)];
    RunThen(s0, es, Begin(7, Some(Creation))); es := es + [Begin(7, Some(Creation))];
    RunThen(s0, es, Deliver(0)); es := es + [Deliver(0)];
    RunThen(s0, es, BrowserTurn); es := es + [BrowserTurn];
  }

  lemma SuspendUnderFlight(s: System) returns (es: seq<Event>)
    requires FliesUnderGate(s)
    ensures Legal(s, es)
    ensures var u := Run(s, es);
            && 7 in u.reqs && u.reqs[7].phase == Settled && u.reqs[7].hits == 1 && u.reqs[7].asked && u.reqs[7].armed == 1
            && |u.ctl.gates| == 1 && Open(u.ctl.gates[0], Creation, Response) && u.ctl.gates[0].ids == []
  {
    var t := Next(s, Suspend);
    assert t.toBrowser == [Sent(FetchDisable, Suspending)];
    var u := Next(t, BrowserTurn);
    assert u.reqs[7] == LetGo(t.reqs[7], s.forgets);
    es := [];
    RunThen(s, es, Suspend); es := es + [Suspend];
    RunThen(s, es, BrowserTurn); es := es + [BrowserTurn];
    RunThen(s, es, Arrive(7)); es := es + [Arrive(7)];
  }

  /** `suspend` refuses only while something is held.  So it may switch interception off
      under a request that has been let go on, and the response passes an open gate
      that holds nothing. */
  lemma SuspendLetsResponsePass(forgets: bool) returns (es: seq<Event>)
    ensures Legal(Start(forgets), es)
    ensures var u := Run(Start(forgets), es);
            && 7 in u.reqs && u.reqs[7].phase == Settled && u.reqs[7].hits == 1 && u.reqs[7].asked && u.reqs[7].armed == 1
            && |u.ctl.gates| == 1 && Open(u.ctl.gates[0], Creation, Response) && u.ctl.gates[0].ids == []
  {
    es := FlyUnderGate(forgets);
    var rest := SuspendUnderFlight(Run(Start(forgets), es));
    RunAppend(Start(forgets), es, rest);
    es := es + rest;
  }

  /** A request has paused, the controller has passed it on, and the browser has let it go in between. */
  ghost predicate PassedTooLate(s: System) {
    && s.toBrowser == [Sent(ContinueRequest(7, false), Arrival)] && s.toController == [Reply(Suspending, true)]
    && s.disposal == Live && s.ctl.gates == []
    && 7 in s.reqs && s.reqs[7].phase == Flying(false) && s.reqs[7].misses == 0
  }

  lemma PassTooLate(forgets: bool) returns (es: seq<Event>)
    ensures Legal(Start(forgets), es) && PassedTooLate(Run(Start(forgets), es))
  {
    var s0 := Start(forgets);
    var s1 := Next(s0, Begin(7, None));
    var s2 := Next(s1, Suspend);
    assert s2.toBrowser == [Sent(FetchDisable, Suspending)];
    var s3 := Next(s2, BrowserTurn);
    assert s3.reqs[7] == LetGo(s2.reqs[7], forgets);
    assert s3.toController == [Announcement(7, None), Reply(Suspending, true)];
    PassEffect(s3, 7, Request, 0);
    assert PassedTooLate(Next(s3, Deliver(0)));
    es := [];
    RunThen(s0, es, Begin(7, None)); es := es + [Begin(7, None)];
    RunThen(s0, es, Suspend); es := es + [Suspend];
    RunThen(s0, es, BrowserTurn); es := es + [BrowserTurn];
    RunThen(s0, es, Deliver(0)); es := es + [Deliver(0)];
  }

  lemma MissAndFail(s: System) returns (es: seq<Event>)
    requires PassedTooLate(s)
    ensures Legal(s, es)
    ensures var u := Run(s, es); 7 in u.reqs && u.reqs[7].misses == 1 && u.ctl.failure && u.ctl.gates == []
  {
    var t := Next(s, BrowserTurn);
    assert t.toController == [Reply(Suspending, true), Reply(Arrival, false)] && t.reqs[7].misses == 1;
    var u := Next(t, Deliver(1));
    assert u.toController == [Reply(Arrival, false)];
    es := [];
    RunThen(s, es, BrowserTurn); es := es + [BrowserTurn];
    RunThen(s, es, Deliver(1)); es := es + [Deliver(1)];
    RunThen(s, es, Deliver(2)); es := es + [Deliver(2)];
  }

  /** A request that pauses while `suspend` is on its way is passed on too late: the
      answer misses, and the controller has failed for good. */
  lemma CrossingPauseFails(forgets: bool) returns (es: seq<Event>)
    ensures Legal(Start(forgets), es)
    ensures var u := Run(Start(forgets), es); 7 in u.reqs && u.reqs[7].misses == 1 && u.ctl.failure && u.ctl.gates == []
  {
    es := PassTooLate(forgets);
    var rest := MissAndFail(Run(Start(forgets), es));
    RunAppend(Start(forgets), es, rest);
    es := es + rest;
  }

  /** A request has paused that gate 0 is waiting for, the browser has let it go, and nothing else is going on. */
  ghost predicate LateForGate(s: System) {
    && s.ctl == Controller([NewGate(Creation, Request)], 0, 0, true, false, false)
    && s.toBrowser == [] && s.toController == [Announcement(7, Some(Creation)), Reply(Suspending, true)]
    && s.disposal == Live && !s.fetchOn
    && 7 in s.reqs && s.reqs[7].kind == Some(Creation) && s.reqs[7].stage == Request
    && s.reqs[7].place == Inbox && s.reqs[7].phase == Flying(false)
  }

  lemma PauseLate(forgets: bool) returns (es: seq<Event>)
    ensures Legal(Start(forgets), es) && LateForGate(Run(Start(forgets), es))
  {
    var s0 := Start(forgets);
    var s1 := Armed(forgets, [NewGate(Creation, Request)]);
    assert Next(s0, ArmGate(Creation, Request)) == s1;
    var s2 := Next(s1, Begin(7, Some(Creation)));
    var s3 := Next(s2, Suspend);
    assert s3.toBrowser == [Sent(FetchDisable, Suspending)];
    var s4 := Next(s3, BrowserTurn);
    assert s4.reqs[7] == LetGo(s3.reqs[7], forgets);
    assert LateForGate(s4);
    es := [];
    RunThen(s0, es, ArmGate(Creation, Request)); es := es + [ArmGate(Creation, Request)];
    RunThen(s0, es, Begin(7, Some(Creation))); es := es + [Begin(7, Some(Creation))];
    RunThen(s0, es, Suspend); es := es + [Suspend];
    RunThen(s0, es, BrowserTurn); es := es + [BrowserTurn];
  }

  lemma HoldLate(s: System) returns (es: seq<Event>)
    requires LateForGate(s)
    ensures Legal(s, es)
    ensures var u := Run(s, es);
            && u.toBrowser == [] && u.toController == [] && !u.ctl.fetchEnabled && !u.fetchOn
            && HeldBy(u, 0, 7) && 7 in u.reqs && !Paused(u.reqs[7])
  {
    OpenIsWanted(s.ctl.gates, Creation, Request, 0);
    HoldEffect(s, 7, Request, 0);
    var t := Next(s, Deliver(0));
    assert t.toController == [Reply(Suspending, true)] && t.ctl.gates[0].ids == [7];
    es := [];
    RunThen(s, es, Deliver(0)); es := es + [Deliver(0)];
    RunThen(s, es, Deliver(1)); es := es + [Deliver(1)];
  }

  /** A gate can hold a request while interception is off and everything sent has been
      acknowledged; the browser has let that request go. */
  lemma HeldWhileOff(forgets: bool) returns (es: seq<Event>)
    ensures Legal(Start(forgets), es)
    ensures var u := Run(Start(forgets), es);
            && u.toBrowser == [] && u.toController == [] && !u.ctl.fetchEnabled && !u.fetchOn
            && HeldBy(u, 0, 7) && 7 in u.reqs && !Paused(u.reqs[7])
  {
    es := PauseLate(forgets);
    var rest := HoldLate(Run(Start(forgets), es));
    RunAppend(Start(forgets), es, rest);
    es := es + rest;
  }

  // -------- a disposal that is aborted --------

  /** Two gates hold a request each, both let go by the browser while `suspend` was on its way. */
  ghost predicate TwoHeldTooLate(s: System) {
    && s.toBrowser == [] && s.toController == [Reply(Suspending, true)] && s.disposal == Live
    && |s.ctl.gates| == 2
    && s.ctl.gates[0].stage == Request && !s.ctl.gates[0].released && s.ctl.gates[0].ids == [1]
    && !s.ctl.gates[1].released && s.ctl.gates[1].ids == [2] && s.ctl.gates[1].stage == Request
    && 1 in s.reqs && s.reqs[1].phase == Flying(false)
  }

  ghost predicate TwoPaused(s: System) {
    && s.ctl == Controller([NewGate(Creation, Request), NewGate(Prompt, Request)], 0, 0, true, false, false)
    && s.toController == [Announcement(1, Some(Creation)), Announcement(2, Some(Prompt))] && s.toBrowser == []
    && s.disposal == Live && 1 in s.reqs && 2 in s.reqs
    && s.reqs[1] == Starting(Some(Creation), 0) && s.reqs[2] == Starting(Some(Prompt), 0)
  }

  lemma PauseTwo(forgets: bool) returns (es: seq<Event>)
    ensures Legal(Start(forgets), es) && TwoPaused(Run(Start(forgets), es))
  {
    var s0 := Start(forgets);
    var g, h := NewGate(Creation, Request), NewGate(Prompt, Request);
    assert Next(s0, ArmGate(Creation, Request)) == Armed(forgets, [g]);
    assert Next(Armed(forgets, [g]), ArmGate(Prompt, Request)) == Armed(forgets, [g, h]);
    es := [];
    RunThen(s0, es, ArmGate(Creation, Request)); es := es + [ArmGate(Creation, Request)];
    RunThen(s0, es, ArmGate(Prompt, Request)); es := es + [ArmGate(Prompt, Request)];
    RunThen(s0, es, Begin(1, Some(Creation))); es := es + [Begin(1, Some(Creation))];
    RunThen(s0, es, Begin(2, Some(Prompt))); es := es + [Begin(2, Some(Prompt))];
  }

  lemma HoldTwo(s: System) returns (es: seq<Event>)
    requires TwoPaused(s)
    ensures Legal(s, es) && TwoHeldTooLate(Run(s, es))
  {
    var s1 := Next(s, Suspend);
    assert s1.toBrowser == [Sent(FetchDisable, Suspending)];
    var s2 := Next(s1, BrowserTurn);
    assert s2.toController == [Announcement(1, Some(Creation)), Announcement(2, Some(Prompt)), Reply(Suspending, true)];
    assert s2.reqs[1] == LetGo(s.reqs[1], s.forgets) && s2.reqs[2] == LetGo(s.reqs[2], s.forgets);
    HoldBoth(s2);
    es := [];
    RunThen(s, es, Suspend); es := es + [Suspend];
    RunThen(s, es, BrowserTurn); es := es + [BrowserTurn];
    RunThen(s, es, Deliver(0)); es := es + [Deliver(0)];
    RunThen(s, es, Deliver(0)); es := es + [Deliver(0)];
  }

  lemma HoldBoth(s: System)
    requires s.ctl == Controller([NewGate(Creation, Request), NewGate(Prompt, Request)], 0, 0, true, false, false)
    requires s.toController == [Announcement(1, Some(Creation)), Announcement(2, Some(Prompt)), Reply(Suspending, true)]
    requires s.toBrowser == [] && s.disposal == Live && 1 in s.reqs && 2 in s.reqs
    requires s.reqs[1].kind == Some(Creation) && s.reqs[1].stage == Request && s.reqs[1].place == Inbox && s.reqs[1].phase == Flying(false)
    requires s.reqs[2].kind == Some(Prompt) && s.reqs[2].stage == Request && s.reqs[2].place == Inbox
    ensures var t := Next(s, Deliver(0)); t.toController != [] && TwoHeldTooLate(Next(t, Deliver(0)))
  {
    var t := Next(s, Deliver(0));
    OpenIsWanted(s.ctl.gates, Creation, Request, 0);
    HoldEffect(s, 1, Request, 0);
    assert t.ctl.gates[1] == NewGate(Prompt, Request) && t.ctl.gates[0].kind == Creation;
    OpenIsWanted(t.ctl.gates, Prompt, Request, 1);
    assert FirstOpen(t.ctl.gates, Prompt, Request) == 1;
    HoldEffect(t, 2, Request, 0);
    assert t.toController[1..] == [Reply(Suspending, true)];
  }

  /** The disposal waits for its first answer, which will miss. */
  ghost predicate WaitsInVain(s: System) {
    && (exists intercept :: s.toBrowser == [Sent(ContinueRequest(1, intercept), Teardown)])
    && s.toController == [Reply(Suspending, true)] && s.disposal == Draining(1)
    && 1 in s.reqs && s.reqs[1].phase == Flying(false) && HeldBy(s, 1, 2)
  }

  lemma DisposeInVain(s: System) returns (es: seq<Event>)
    requires TwoHeldTooLate(s)
    ensures Legal(s, es) && WaitsInVain(Run(s, es))
  {
    FirstAnswer(Next(s, Dispose));
    es := [];
    RunThen(s, es, Dispose); es := es + [Dispose];
    RunThen(s, es, DisposeNext); es := es + [DisposeNext];
  }

  /** The answer misses, so the disposal ends there. */
  lemma AbortNow(s: System) returns (es: seq<Event>)
    requires WaitsInVain(s)
    ensures Legal(s, es)
    ensures Run(s, es).disposal == Closed(true) && HeldBy(Run(s, es), 1, 2)
  {
    var t := Next(s, BrowserTurn);
    assert t.toController == [Reply(Suspending, true), Reply(Teardown, false)];
    var u := Next(t, Deliver(0));
    assert u.toController == [Reply(Teardown, false)];
    es := [];
    RunThen(s, es, BrowserTurn); es := es + [BrowserTurn];
    RunThen(s, es, Deliver(0)); es := es + [Deliver(0)];
    RunThen(s, es, Deliver(0)); es := es + [Deliver(0)];
  }

  lemma FirstAnswer(s: System)
    requires TwoHeldTooLate(s.(disposal := Live)) && s.disposal == Draining(0)
    ensures Enabled(s, DisposeNext) && WaitsInVain(Next(s, DisposeNext))
  {
    var g := s.ctl.gates[0];
    var gates := s.ctl.gates[0 := Finished(g, false, false)];
    FinishEffect(s, 0, false, false, Teardown);
    var cmd := ContinueRequest(1, Intercepts(gates, g, false));
    assert Answers([1], Request, false, Intercepts(gates, g, false)) == [cmd];
    assert Marked([cmd], Teardown) == [Sent(cmd, Teardown)];
    assert Next(s, DisposeNext).toBrowser == [Sent(cmd, Teardown)];
  }

  /** A disposal one of whose own answers misses is aborted, and gates it has not come
      to still hold what the browser has long let go. */
  lemma AbortedDisposalHolds(forgets: bool) returns (es: seq<Event>)
    ensures Legal(Start(forgets), es)
    ensures Run(Start(forgets), es).disposal == Closed(true) && HeldBy(Run(Start(forgets), es), 1, 2)
  {
    var first := PauseTwo(forgets);
    var second := HoldTwo(Run(Start(forgets), first));
    RunAppend(Start(forgets), first, second);
    var third := DisposeInVain(Run(Start(forgets), first + second));
    RunAppend(Start(forgets), first + second, third);
    var last := AbortNow(Run(Start(forgets), first + second + third));
    RunAppend(Start(forgets), first + second + third, last);
    es := first + second + third + last;
  }
}
