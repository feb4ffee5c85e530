/**
 The controller as the source writes it: gate objects that are updated in
 place, a list of them that only grows, and commands that go out on a socket.
 Every method is one event-loop turn and does to the objects what the function
 of the same name in GateProtocol says.
 */
module GateController {
  import opened Basics
  import P = GateProtocol

  class InstantGate {
    const kind: P.Kind
    const stage: P.Stage
    var requestIds: seq<P.RequestId>
    var heldAt: Option<int>
    var released: bool
    var failed: bool
    var expired: bool
    var timer: bool

    constructor (kind: P.Kind, stage: P.Stage)
      ensures View() == P.NewGate(kind, stage)
    {
      this.kind, this.stage := kind, stage;
      requestIds, heldAt := [], None;
      released, failed, expired, timer := false, false, false, false;
    }

    function View(): P.Gate
      reads this
    {
      P.Gate(kind, stage, requestIds, heldAt, released, failed, expired, timer)
    }
  }

  /** What `read` returns. */
  datatype Reading = Reading(creation: nat, prompt: nat, enabled: bool, activeGateCount: nat, activeHeldRequestCount: nat)

  ghost function Views(gates: seq<InstantGate>): (r: seq<P.Gate>)
    reads gates
  {
    seq(|gates|, i requires 0 <= i < |gates| reads gates => gates[i].View())
  }

  class Controller {
    var gates: seq<InstantGate>
    var creation: nat
    var prompt: nat
    var fetchEnabled: bool
    var disposed: bool
    var failure: bool
    var sent: seq<P.Command>

    constructor ()
      ensures Valid() && View() == P.Controller([], 0, 0, true, false, false) && sent == []
      ensures fresh(gates)
    {
      gates, creation, prompt, fetchEnabled, disposed, failure, sent := [], 0, 0, true, false, false, [];
    }

    /** The gates are different objects. */
    ghost predicate Valid()
      reads this
    {
      Distinct(gates)
    }

    ghost function Gates(): (r: seq<P.Gate>)
      reads this`gates, gates
    {
      Views(gates)
    }

    ghost function View(): P.Controller
      reads this, gates
    {
      P.Controller(Gates(), creation, prompt, fetchEnabled, disposed, failure)
    }

    /** `gates.find` for an unreleased gate of this kind and stage. */
    method Find(kind: P.Kind, stage: P.Stage) returns (i: nat)
      ensures i == P.FirstOpen(Gates(), kind, stage)
    {
      i := 0;
      while i < |gates|
        invariant i <= |gates|
        invariant forall j :: 0 <= j < i ==> !P.Open(Gates()[j], kind, stage)
      {
        if gates[i].kind == kind && gates[i].stage == stage && !gates[i].released {
          assert P.Open(Gates()[i], kind, stage);
          return;
        }
        i := i + 1;
      }
    }

    /** `gates.some` for an unreleased response gate of this kind. */
    method ResponseGateOpen(kind: P.Kind) returns (found: bool)
      ensures found <==> P.HasOpen(Gates(), kind, P.Response)
    {
      var i := Find(kind, P.Response);
      found := i < |gates|;
    }

    method OnPaused(id: P.RequestId, kind: Option<P.Kind>, stage: P.Stage, now: int)
      requires Valid()
      modifies this, gates
      ensures Valid() && gates == old(gates)
      ensures View() == P.OnPaused(old(View()), id, kind, stage, now).0
      ensures sent == old(sent) + P.OnPaused(old(View()), id, kind, stage, now).1
    {
      if kind == None {
        sent := sent + [P.ContinueCommand(stage, id, false)];
        return;
      }
      Count(kind.value, stage);
      var i := Find(kind.value, stage);
      if i == |gates| {
        Pass(id, kind.value, stage);
      } else {
        HoldIn(i, id, now);
      }
    }

    method Pass(id: P.RequestId, kind: P.Kind, stage: P.Stage)
      modifies this`sent
      ensures sent == old(sent) + [P.ContinueCommand(stage, id, stage == P.Request && P.HasOpen(Gates(), kind, P.Response))]
    {
      var responseGateOpen := ResponseGateOpen(kind);
      sent := sent + [P.ContinueCommand(stage, id, stage == P.Request && responseGateOpen)];
    }

    method Count(kind: P.Kind, stage: P.Stage)
      modifies this`creation, this`prompt
      ensures View() == P.Counted(old(View()), kind, stage) && Gates() == old(Gates())
    {
      if stage == P.Request {
        if kind == P.Creation { creation := creation + 1; } else { prompt := prompt + 1; }
      }
    }

    method HoldIn(i: nat, id: P.RequestId, now: int)
      requires Valid() && i < |gates|
      modifies gates[i]
      ensures Gates() == old(Gates())[i := P.Hold(old(Gates())[i], id, now)]
    {
      var gate := gates[i];
      if id !in gate.requestIds { gate.requestIds := gate.requestIds + [id]; }
      if gate.heldAt == None {
        gate.heldAt := Some(now);
        gate.timer := true;
      }
    }

    method FinishGate(i: nat, fail: bool)
      requires Valid() && i < |gates|
      modifies this, gates[i]
      ensures Valid() && gates == old(gates)
      ensures View() == P.Finish(old(View()), i, fail).0
      ensures sent == old(sent) + P.Finish(old(View()), i, fail).1
    {
      var gate := gates[i];
      if gate.released { return; }
      gate.released := true;
      gate.failed := fail;
      gate.timer := false;
      assert Gates() == old(Gates())[i := P.FinishedGate(old(Gates())[i], fail)];
      var responseGateOpen := ResponseGateOpen(gate.kind);
      var interceptResponse := !fail && gate.stage == P.Request && responseGateOpen;
      var before := sent;
      var n := 0;
      while n < |gate.requestIds|
        invariant n <= |gate.requestIds|
        invariant sent == before + P.Answers(gate.requestIds[..n], gate.stage, fail, interceptResponse)
        modifies this`sent
      {
        sent := sent + [P.AnswerCommand(gate.stage, fail, interceptResponse, gate.requestIds[n])];
        assert gate.requestIds[..n + 1] == gate.requestIds[..n] + [gate.requestIds[n]];
        n := n + 1;
      }
      assert gate.requestIds[..n] == gate.requestIds;
    }

    /** The callback of the gate's 30 second timer. */
    method ExpireGate(i: nat)
      requires Valid() && i < |gates| && gates[i].timer
      modifies this, gates[i]
      ensures Valid() && gates == old(gates)
      ensures View() == P.Expire(old(View()), i).0
      ensures sent == old(sent) + P.Expire(old(View()), i).1
    {
      gates[i].expired := true;
      assert Gates() == old(Gates())[i := old(Gates())[i].(expired := true)];
      FinishGate(i, false);
    }

    /** `holdNext`; `None` is the exception thrown once the controller is disposed. */
    method Arm(kind: P.Kind, stage: P.Stage) returns (gate: Option<InstantGate>)
      requires Valid()
      modifies this
      ensures Valid() && View() == P.Arm(old(View()), kind, stage) && sent == old(sent)
      ensures gate.None? <==> old(disposed)
      ensures gate.Some? ==> fresh(gate.value) && gates == old(gates) + [gate.value]
    {
      if disposed { return None; }
      var state := new InstantGate(kind, stage);
      assert state !in gates;
      gates := gates + [state];
      assert Gates() == old(Gates()) + [P.NewGate(kind, stage)];
      gate := Some(state);
    }

    /** `read`; `None` is the exception once the controller has failed. */
    method Read() returns (reading: Option<Reading>)
      ensures reading == if failure then None
                         else Some(Reading(creation, prompt, fetchEnabled, P.ActiveCount(Gates()), P.HeldCount(Gates())))
    {
      if failure { return None; }
      var active, held := 0, 0;
      var i := 0;
      assert Gates()[..0] == [];
      while i < |gates|
        invariant i <= |gates|
        invariant active == P.ActiveCount(Gates()[..i]) && held == P.HeldCount(Gates()[..i])
      {
        assert Gates()[..i + 1][..i] == Gates()[..i];
        if !gates[i].released && gates[i].requestIds != [] {
          active := active + 1;
          held := held + |gates[i].requestIds|;
        }
        i := i + 1;
      }
      assert Gates()[..i] == Gates();
      reading := Some(Reading(creation, prompt, fetchEnabled, active, held));
    }

    /** The outcome of a command comes back. */
    method OnReply(origin: P.Origin, ok: bool)
      modifies this
      ensures View() == P.OnReply(old(View()), origin, ok) && sent == old(sent) && gates == old(gates)
    {
      match origin
      case Arrival => failure := failure || !ok;
      case Timer => failure := failure || !ok;
      case Suspending => fetchEnabled := false;
      case Resuming => fetchEnabled := true;
      case _ =>
    }

    /** `suspend` up to its `await`: refuses when disposed or failed and while anything is held. */
    method Suspend() returns (thrown: bool)
      modifies this`sent
      ensures thrown <==> P.SuspendThrows(View())
      ensures thrown <==> disposed || failure || exists j :: 0 <= j < |gates| && !gates[j].released && gates[j].requestIds != []
      ensures sent == old(sent) + if !thrown && fetchEnabled then [P.FetchDisable] else []
    {
      thrown := disposed || failure;
      var i := 0;
      while i < |gates| && !thrown
        invariant i <= |gates|
        invariant thrown <==> disposed || failure || exists j :: 0 <= j < i && !gates[j].released && gates[j].requestIds != []
      {
        thrown := !gates[i].released && gates[i].requestIds != [];
        i := i + 1;
      }
      assert forall j :: 0 <= j < |gates| ==> (P.Active(Gates()[j]) <==> !gates[j].released && gates[j].requestIds != []);
      if !thrown && fetchEnabled { sent := sent + [P.FetchDisable]; }
    }

    /** `resume` up to its `await`. */
    method Resume() returns (thrown: bool)
      modifies this`sent
      ensures thrown <==> P.ResumeThrows(View())
      ensures thrown <==> disposed || failure
      ensures sent == old(sent) + if !thrown && !fetchEnabled then [P.FetchEnable] else []
    {
      thrown := disposed || failure;
      if !thrown && !fetchEnabled { sent := sent + [P.FetchEnable]; }
    }

    /** One round of the disposal loop; after the last gate, the final disable or the end. */
    method DisposeNext(next: nat) returns (done: bool)
      requires Valid()
      modifies this, gates
      ensures Valid() && gates == old(gates)
      ensures next < |gates| ==> !done && View() == P.Finish(old(View()), next, false).0
                                 && sent == old(sent) + P.Finish(old(View()), next, false).1
      ensures next >= |gates| && old(fetchEnabled) ==> !done && View() == old(View()) && sent == old(sent) + [P.FetchDisable]
      ensures next >= |gates| && !old(fetchEnabled) ==> done && View() == P.Closing(old(View())) && sent == old(sent)
    {
      done := false;
      if next < |gates| {
        FinishGate(next, false);
      } else if fetchEnabled {
        sent := sent + [P.FetchDisable];
      } else {
        Close();
        done := true;
      }
    }

    /** The end of a disposal: also where one of its answers has failed. */
    method Close()
      modifies this`fetchEnabled, this`disposed
      ensures View() == P.Closing(old(View()))
    {
      fetchEnabled := false;
      disposed := true;
    }
  }
}
