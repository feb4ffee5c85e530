/**
 The gate controller together with the browser, over one connection that keeps
 order in both directions: commands wait in one queue until the browser processes
 them, pauses and outcomes in another until the controller handles them.  Patterns
 are given for the request stage only, so a response pauses only when its request
 was continued with `interceptResponse`.  Switching interception off lets go
 everything that is paused.
 */
module GateSystem {
  import opened Basics
  import opened GateProtocol

  datatype Phase = AtRequest | Flying(intercept: bool) | AtResponse | Settled

  /** Where a request's latest pause is on its way through the controller. */
  datatype Place = Inbox | InGate(gate: nat) | Outbox(command: Command) | Done

  /** A request as the browser sees it, with a record of what has happened to it: the
      number of its pauses, of those handled by the controller, of the answers sent and
      of those that reached it or missed it; `epoch`, how often interception had been
      switched off at its latest pause; how many gates were armed (`armed`) and whether
      its response was asked for (`asked`) when the controller let it go on; and
      whether the page got the made-up refusal. */
  datatype Req = Req(kind: Option<Kind>, phase: Phase, stage: Stage, place: Place, epoch: nat,
                     pauses: nat, seen: nat, told: nat, hits: nat, misses: nat,
                     armed: nat, asked: bool, rejected: bool)

  type Requests = map<RequestId, Req>

  function Starting(kind: Option<Kind>, epoch: nat): Req {
    Req(kind, AtRequest, Request, Inbox, epoch, 1, 0, 0, 0, 0, 0, false, false)
  }

  predicate Paused(r: Req) { r.phase == AtRequest || r.phase == AtResponse }

  datatype Sent = Sent(command: Command, origin: Origin)

  datatype Message = Pausing(id: RequestId, kind: Option<Kind>, stage: Stage) | Reply(origin: Origin, ok: bool)

  /** Progress of `asyncDispose`; `aborted` when one of its own answers failed. */
  datatype Progress = Live | Draining(next: nat) | Disabling | Closed(aborted: bool)

  /** `forgets` says which kind of browser it is: whether switching interception off
      also drops the wish to intercept a response that is still to come.  `missed`
      records on whose behalf the answers were sent that missed their request. */
  datatype System = System(ctl: Controller, reqs: Requests, fetchOn: bool, disables: nat, missed: set<Origin>,
                           forgets: bool, toBrowser: seq<Sent>, toController: seq<Message>, disposal: Progress)

  function Start(forgets: bool): System {
    System(Controller([], 0, 0, true, false, false), map[], true, 0, {}, forgets, [], [], Live)
  }

  datatype Event =
    | Begin(id: RequestId, kind: Option<Kind>)   // the page starts a matching request
    | Arrive(id: RequestId)                      // the server's answer reaches the browser
    | BrowserTurn                                // the browser processes the oldest command
    | Deliver(now: int)                          // the controller handles the oldest message
    | ArmGate(gateKind: Kind, stage: Stage)
    | FinishGate(gate: nat, fail: bool)
    | ExpireGate(expiring: nat)
    | Suspend
    | Resume
    | Dispose
    | DisposeNext                                // dispose goes on after an `await`

  // -------- the browser's side --------

  /** A closed connection delivers nothing. */
  function Emit(s: System, m: Message): System {
    if s.disposal.Closed? then s else s.(toController := s.toController + [m])
  }

  predicate IsAnswer(cmd: Command) { cmd.ContinueRequest? || cmd.ContinueResponse? || cmd.FulfillRequest? }

  /** The answer finds its request paused at the stage it is for. */
  predicate Hits(r: Req, cmd: Command) {
    match cmd
    case ContinueRequest(_, _) => r.phase == AtRequest
    case ContinueResponse(_) => r.phase == AtResponse
    case FulfillRequest(_) => Paused(r)
    case _ => false
  }

  function Answered(r: Req, cmd: Command): Req {
    var q := r.(place := Done);
    if !Hits(r, cmd) then q.(misses := r.misses + 1)
    else if cmd.ContinueRequest? then q.(hits := r.hits + 1, phase := Flying(cmd.interceptResponse))
    else q.(hits := r.hits + 1, phase := Settled, rejected := cmd.FulfillRequest?)
  }

  function LetGo(r: Req, forgets: bool): Req {
    match r.phase
    case AtRequest => r.(phase := Flying(false))
    case AtResponse => r.(phase := Settled)
    case Flying(intercept) => r.(phase := Flying(intercept && !forgets))
    case Settled => r
  }

  function AllLetGo(reqs: Requests, forgets: bool): (r: Requests)
    ensures r.Keys == reqs.Keys
  {
    map id | id in reqs :: LetGo(reqs[id], forgets)
  }

  /** The outcome of an answer is sent back, and an error recorded. */
  function Outcome(s: System, origin: Origin, ok: bool): System {
    Emit(s.(missed := s.missed + (if ok then {} else {origin})), Reply(origin, ok))
  }

  function Process(s: System, x: Sent): System {
    match x.command
    case FetchEnable => Outcome(s.(fetchOn := true), x.origin, true)
    case FetchDisable =>
      Outcome(s.(fetchOn := false, disables := s.disables + 1, reqs := AllLetGo(s.reqs, s.forgets)), x.origin, true)
    case _ =>
      var id := x.command.id;
      if id !in s.reqs then Outcome(s, x.origin, false)
      else Outcome(s.(reqs := s.reqs[id := Answered(s.reqs[id], x.command)]), x.origin, Hits(s.reqs[id], x.command))
  }

  function Responding(s: System, id: RequestId): System
    requires id in s.reqs && s.reqs[id].phase.Flying?
  {
    var r := s.reqs[id];
    if r.phase.intercept && s.fetchOn
    then Emit(s.(reqs := s.reqs[id := r.(phase := AtResponse, stage := Response, place := Inbox,
                                        epoch := s.disables, pauses := r.pauses + 1)]),
              Pausing(id, r.kind, Response))
    else s.(reqs := s.reqs[id := r.(phase := Settled)])
  }

  // -------- the controller's side --------

  /** The first of these commands that answers `id`. */
  function AnswerFor(cmds: seq<Command>, id: RequestId): Option<Command>
    decreases |cmds|
  {
    if cmds == [] then None
    else if IsAnswer(cmds[0]) && cmds[0].id == id then Some(cmds[0])
    else AnswerFor(cmds[1..], id)
  }

  function Told(r: Req, cmd: Command, armed: nat): Req {
    var q := r.(place := Outbox(cmd), told := r.told + 1);
    if cmd.ContinueRequest? then q.(armed := armed, asked := cmd.interceptResponse) else q
  }

  function AllTold(reqs: Requests, cmds: seq<Command>, armed: nat): (r: Requests)
    ensures r.Keys == reqs.Keys
  {
    map id | id in reqs :: match AnswerFor(cmds, id)
      case None => reqs[id]
      case Some(cmd) => Told(reqs[id], cmd, armed)
  }

  function Marked(cmds: seq<Command>, origin: Origin): (r: seq<Sent>)
    ensures |r| == |cmds| && forall i :: 0 <= i < |cmds| ==> r[i] == Sent(cmds[i], origin)
  {
    seq(|cmds|, i requires 0 <= i < |cmds| => Sent(cmds[i], origin))
  }

  /** Take over the controller's new data and put the commands it sent on the connection. */
  function Perform(s: System, turn: (Controller, seq<Command>), origin: Origin): System {
    s.(ctl := turn.0, reqs := AllTold(s.reqs, turn.1, |turn.0.gates|), toBrowser := s.toBrowser + Marked(turn.1, origin))
  }

  function Switch(s: System, cmd: Command, origin: Origin): System {
    s.(toBrowser := s.toBrowser + [Sent(cmd, origin)])
  }

  /** The socket is closed: what was sent is still processed, and then interception ends. */
  function Close(s: System, aborted: bool): System {
    Switch(s.(ctl := Closing(s.ctl), toController := [], disposal := Closed(aborted)), FetchDisable, Detaching)
  }

  function Seen(reqs: Requests, id: RequestId): Requests {
    if id in reqs then reqs[id := reqs[id].(seen := reqs[id].seen + 1)] else reqs
  }

  function Kept(reqs: Requests, id: RequestId, j: nat): Requests {
    if id in reqs then reqs[id := reqs[id].(seen := reqs[id].seen + 1, place := InGate(j))] else reqs
  }

  predicate Wanted(gates: seq<Gate>, kind: Option<Kind>, stage: Stage) {
    kind.Some? && FirstOpen(gates, kind.value, stage) < |gates|
  }

  function HandlePause(s: System, id: RequestId, kind: Option<Kind>, stage: Stage, now: int): System {
    var turn := OnPaused(s.ctl, id, kind, stage, now);
    if Wanted(s.ctl.gates, kind, stage)
    then s.(ctl := turn.0, reqs := Kept(s.reqs, id, FirstOpen(s.ctl.gates, kind.value, stage)))
    else Perform(s.(reqs := Seen(s.reqs, id)), turn, Arrival)
  }

  function HandleReply(s: System, origin: Origin, ok: bool): System {
    if origin == Disposing then Close(s, false)
    else if origin == Teardown && !ok then Close(s, true)
    else s.(ctl := OnReply(s.ctl, origin, ok))
  }

  /** The final acknowledgement, or the error of an answer of the disposal's own. */
  predicate EndsIt(m: Message) { m.Reply? && (m.origin == Disposing || (m.origin == Teardown && !m.ok)) }

  function Handle(s: System, m: Message, now: int): System {
    match m
    case Pausing(id, kind, stage) => HandlePause(s, id, kind, stage, now)
    case Reply(origin, ok) => HandleReply(s, origin, ok)
  }

  /** Some answer of the disposal's own is not yet acknowledged. */
  predicate Awaiting(s: System) {
    || (exists i :: 0 <= i < |s.toBrowser| && s.toBrowser[i].origin == Teardown)
    || (exists i :: 0 <= i < |s.toController| && FromOrigin(s.toController[i], Teardown))
  }

  predicate FromOrigin(m: Message, origin: Origin) { m.Reply? && m.origin == origin }

  // -------- steps --------

  predicate Enabled(s: System, e: Event) {
    match e
    case Begin(id, _) => s.fetchOn && id !in s.reqs
    case Arrive(id) => id in s.reqs && s.reqs[id].phase.Flying?
    case BrowserTurn => s.toBrowser != []
    case Deliver(_) => s.toController != []
    case FinishGate(j, _) => j < |s.ctl.gates| && !s.disposal.Closed?
    case ExpireGate(j) => j < |s.ctl.gates| && s.ctl.gates[j].timer && !s.disposal.Closed?
    case DisposeNext => s.disposal.Draining? && !Awaiting(s)
    case _ => true
  }

  function Next(s: System, e: Event): System
    requires Enabled(s, e)
  {
    match e
    case Begin(id, kind) => Emit(s.(reqs := s.reqs[id := Starting(kind, s.disables)]), Pausing(id, kind, Request))
    case Arrive(id) => Responding(s, id)
    case BrowserTurn => Process(s.(toBrowser := s.toBrowser[1..]), s.toBrowser[0])
    case Deliver(now) => Handle(s.(toController := s.toController[1..]), s.toController[0], now)
    case ArmGate(k, stage) => s.(ctl := Arm(s.ctl, k, stage))
    case FinishGate(j, fail) => Perform(s, Finish(s.ctl, j, fail), Caller)
    case ExpireGate(j) => Perform(s, Expire(s.ctl, j), Timer)
    case Suspend => if SuspendThrows(s.ctl) || !s.ctl.fetchEnabled then s else Switch(s, FetchDisable, Suspending)
    case Resume => if ResumeThrows(s.ctl) || s.ctl.fetchEnabled then s else Switch(s, FetchEnable, Resuming)
    case Dispose => if s.disposal == Live then s.(disposal := Draining(0)) else s
    case DisposeNext => DisposeRound(s)
  }

  /** The next gate; after the last one the final disable; or the end. */
  function DisposeRound(s: System): System
    requires s.disposal.Draining?
  {
    var next := s.disposal.next;
    if next < |s.ctl.gates| then Perform(s, Finish(s.ctl, next, false), Teardown).(disposal := Draining(next + 1))
    else if s.ctl.fetchEnabled then Switch(s, FetchDisable, Disposing).(disposal := Disabling)
    else Close(s, false)
  }

  ghost predicate Legal(s: System, es: seq<Event>)
    decreases |es|
  {
    es == [] || (Enabled(s, es[0]) && Legal(Next(s, es[0]), es[1..]))
  }

  ghost function Run(s: System, es: seq<Event>): System
    requires Legal(s, es)
    decreases |es|
  {
    if es == [] then s else Run(Next(s, es[0]), es[1..])
  }

  // -------- what every step keeps: gates and what they hold --------

  predicate GateOk(g: Gate) {
    && Distinct(g.ids)
    && (g.timer <==> Active(g))
    && (g.heldAt.Some? <==> g.ids != [])
    && (g.expired ==> g.released && !g.failed)
    && (g.failed ==> g.released)
  }

  ghost predicate GatesOk(gates: seq<Gate>) {
    forall j :: 0 <= j < |gates| ==> GateOk(gates[j])
  }

  predicate SameSort(g: Gate, h: Gate) { g.kind == h.kind && g.stage == h.stage }

  /** A later gate of the same kind and stage holds something only once the earlier one is released. */
  ghost predicate InOrder(gates: seq<Gate>) {
    forall i, j :: 0 <= i < j < |gates| && SameSort(gates[i], gates[j]) && gates[j].ids != [] ==> gates[i].released
  }

  ghost predicate Holds(gates: seq<Gate>, j: nat, id: RequestId) {
    j < |gates| && !gates[j].released && id in gates[j].ids
  }

  ghost predicate HeldBy(s: System, j: nat, id: RequestId) { Holds(s.ctl.gates, j, id) }

  /** What an unreleased gate holds are the requests whose latest pause is in it, of its kind and at its stage. */
  ghost predicate HeldOk(gates: seq<Gate>, reqs: Requests) {
    && (forall j: nat, id :: Holds(gates, j, id) ==> id in reqs && reqs[id].place == InGate(j))
    && (forall id :: id in reqs && reqs[id].place.InGate? ==>
          var j := reqs[id].place.gate;
          Holds(gates, j, id) && reqs[id].kind == Some(gates[j].kind) && reqs[id].stage == gates[j].stage)
  }

  /** A gate's list names only requests of its kind that have paused at its stage. */
  ghost predicate ListsOk(gates: seq<Gate>, reqs: Requests) {
    forall j: nat, id :: j < |gates| && id in gates[j].ids ==>
      id in reqs && reqs[id].kind == Some(gates[j].kind) && (gates[j].stage == Response ==> reqs[id].stage == Response)
  }

  // -------- what is on the connection --------

  /** The undelivered pauses are those of the requests whose latest pause is in the inbox, once each. */
  ghost predicate InboxOk(msgs: seq<Message>, reqs: Requests, closed: bool) {
    && (forall i :: 0 <= i < |msgs| && msgs[i].Pausing? ==>
          var id := msgs[i].id;
          id in reqs && reqs[id].place == Inbox && msgs[i] == Pausing(id, reqs[id].kind, reqs[id].stage))
    && (forall i, k :: 0 <= i < k < |msgs| && msgs[i].Pausing? && msgs[k].Pausing? ==> msgs[i].id != msgs[k].id)
    && (closed || forall id :: id in reqs && reqs[id].place == Inbox ==> Announced(msgs, id))
  }

  ghost predicate Announced(msgs: seq<Message>, id: RequestId) {
    exists i :: 0 <= i < |msgs| && msgs[i].Pausing? && msgs[i].id == id
  }

  predicate Fits(cmd: Command, id: RequestId, r: Req) {
    match cmd
    case ContinueRequest(x, intercept) => x == id && r.stage == Request && intercept == r.asked
    case ContinueResponse(x) => x == id && r.stage == Response
    case FulfillRequest(x) => x == id
    case _ => false
  }

  /** The unprocessed answers are those of the requests whose latest pause is answered but not yet done with, once each. */
  ghost predicate OutboxOk(cmds: seq<Sent>, reqs: Requests) {
    && (forall i :: 0 <= i < |cmds| && IsAnswer(cmds[i].command) ==>
          var id := cmds[i].command.id;
          id in reqs && reqs[id].place == Outbox(cmds[i].command))
    && (forall i, k :: 0 <= i < k < |cmds| && IsAnswer(cmds[i].command) && IsAnswer(cmds[k].command) ==>
          cmds[i].command.id != cmds[k].command.id)
    && (forall id :: id in reqs && reqs[id].place.Outbox? ==>
          Fits(reqs[id].place.command, id, reqs[id]) && Queued(cmds, reqs[id].place.command))
  }

  ghost predicate Queued(cmds: seq<Sent>, cmd: Command) {
    exists i :: 0 <= i < |cmds| && cmds[i].command == cmd
  }

  // -------- each request --------

  function One(b: bool): nat { if b then 1 else 0 }

  /** A request's pauses are conserved from the browser to the controller and back, and
      its latest one is still open in the browser exactly if it is not done with and
      interception has not been switched off since. */
  predicate ReqOk(r: Req, disables: nat, fetchOn: bool, forgets: bool) {
    && r.epoch <= disables
    && (r.epoch == disables ==> fetchOn)
    && (Paused(r) ==> r.place != Done && fetchOn && r.phase == (if r.stage == Request then AtRequest else AtResponse))
    && (r.place != Done ==> (Paused(r) <==> r.epoch == disables))
    && (r.stage == Response ==> !r.phase.Flying? && r.hits >= 1)
    && r.pauses == (if r.stage == Request then 1 else 2)
    && r.pauses == r.seen + One(r.place == Inbox)
    && r.seen == r.told + One(r.place.InGate?)
    && r.told == r.hits + r.misses + One(r.place.Outbox?)
    && r.misses <= 1
    && (r.misses > 0 ==> r.epoch < disables && r.place == Done)
    && (r.phase.Flying? ==> (r.phase.intercept <==> r.asked && r.hits == 1 && (forgets ==> r.epoch == disables)))
    && (r.stage == Request && (r.place == Inbox || r.place.InGate?) ==> r.armed == 0 && !r.asked)
    && (r.stage == Request && r.place.Outbox? && r.place.command.FulfillRequest? ==> r.armed == 0)
    && (r.rejected ==> r.phase == Settled && r.place == Done && r.misses == 0)
    && (r.stage == Request && r.phase == Settled && r.armed > 0 && r.asked ==> r.epoch < disables)
  }

  ghost predicate ReqsOk(reqs: Requests, disables: nat, fetchOn: bool, forgets: bool) {
    forall id :: id in reqs ==> ReqOk(reqs[id], disables, fetchOn, forgets)
  }

  // -------- no response escapes --------

  /** Gate `j` was armed and waiting for responses of this request's kind when the
      request was let go on, and still is; and interception has not been switched off. */
  ghost predicate Waiting(gates: seq<Gate>, r: Req, disables: nat, j: nat) {
    j < r.armed && j < |gates| && r.kind.Some? && Open(gates[j], r.kind.value, Response) && r.epoch == disables
  }

  ghost predicate CaughtBefore(gates: seq<Gate>, id: RequestId, j: nat, h: nat) {
    h < j < |gates| && gates[h].released && SameSort(gates[h], gates[j]) && id in gates[h].ids
  }

  /** No response escapes a waiting gate: it has been asked for, and once it has been
      answered an earlier gate had stopped it. */
  ghost predicate NoEscape(gates: seq<Gate>, reqs: Requests, disables: nat) {
    forall id, j: nat :: id in reqs && Waiting(gates, reqs[id], disables, j) ==>
      && reqs[id].asked
      && (reqs[id].stage == Response && (reqs[id].place.Outbox? || reqs[id].place == Done) ==>
            exists h: nat :: CaughtBefore(gates, id, j, h))
  }

  ghost predicate ArmedBound(gates: seq<Gate>, reqs: Requests) {
    forall id :: id in reqs ==> reqs[id].armed <= |gates|
  }

  // -------- switches and disposal --------

  /** The controller's flag once these messages are handled. */
  function FetchAfter(on: bool, msgs: seq<Message>): bool {
    if msgs == [] then on
    else
      var last := msgs[|msgs| - 1];
      if FromOrigin(last, Resuming) then true
      else if FromOrigin(last, Suspending) || FromOrigin(last, Disposing) then false
      else FetchAfter(on, msgs[..|msgs| - 1])
  }

  predicate OriginFits(x: Sent) {
    match x.command
    case FetchEnable => x.origin == Resuming
    case FetchDisable => x.origin == Suspending || x.origin == Disposing || x.origin == Detaching
    case _ => x.origin == Arrival || x.origin == Caller || x.origin == Timer || x.origin == Teardown
  }

  ghost predicate OriginsOk(cmds: seq<Sent>, msgs: seq<Message>) {
    && (forall i :: 0 <= i < |cmds| ==> OriginFits(cmds[i]))
    && (forall i :: 0 <= i < |msgs| ==> !FromOrigin(msgs[i], Detaching))
  }

  /** Something sent on this behalf is still on the connection, on its way there or back. */
  ghost predicate Pending(cmds: seq<Sent>, msgs: seq<Message>, origin: Origin) {
    || (exists i :: 0 <= i < |cmds| && cmds[i].origin == origin)
    || (exists i :: 0 <= i < |msgs| && FromOrigin(msgs[i], origin))
  }

  const DETACH := Sent(FetchDisable, Detaching)

  ghost predicate DisposalOk(s: System) {
    && (s.ctl.disposed <==> s.disposal.Closed?)
    && (s.disposal.Closed? ==> !s.ctl.fetchEnabled && s.toController == []
                               && (if s.toBrowser == [] then !s.fetchOn else s.toBrowser[|s.toBrowser| - 1] == DETACH))
    && (s.disposal.Draining? ==>
          s.disposal.next <= |s.ctl.gates| && forall j :: 0 <= j < s.disposal.next ==> s.ctl.gates[j].released)
    && (!s.disposal.Closed? ==>
          && s.fetchOn == FetchAfter(s.ctl.fetchEnabled, s.toController)
          && !Pending(s.toBrowser, s.toController, Detaching)
          && (Pending(s.toBrowser, s.toController, Disposing) <==> s.disposal.Disabling?)
          && (Pending(s.toBrowser, s.toController, Teardown) ==> s.disposal.Draining?))
  }

  ghost predicate HasError(msgs: seq<Message>, origin: Origin) {
    exists i :: 0 <= i < |msgs| && msgs[i] == Reply(origin, false)
  }

  /** What the controller has heard, or is about to hear, of an answer that missed:
      it fails exactly for those sent on arrival or by a timer, and a disposal is
      aborted exactly for its own. */
  ghost predicate ErrorsOk(failure: bool, msgs: seq<Message>, missed: set<Origin>, disposal: Progress) {
    && (failure || HasError(msgs, Arrival) || HasError(msgs, Timer) ==> Arrival in missed || Timer in missed)
    && (disposal == Closed(true) || HasError(msgs, Teardown) ==> Teardown in missed)
    && (!disposal.Closed? && (Arrival in missed || Timer in missed) ==> failure || HasError(msgs, Arrival) || HasError(msgs, Timer))
    && (!disposal.Closed? && Teardown in missed ==> HasError(msgs, Teardown))
  }

  ghost predicate MissedOk(missed: set<Origin>, reqs: Requests) {
    missed != {} <==> exists id :: id in reqs && reqs[id].misses > 0
  }

  /** What concerns the connection and the flags as a whole. */
  ghost predicate Flow(s: System) {
    && OriginsOk(s.toBrowser, s.toController)
    && DisposalOk(s)
    && ErrorsOk(s.ctl.failure, s.toController, s.missed, s.disposal)
    && MissedOk(s.missed, s.reqs)
  }

  ghost predicate Inv(s: System) {
    && GatesOk(s.ctl.gates)
    && InOrder(s.ctl.gates)
    && HeldOk(s.ctl.gates, s.reqs)
    && ListsOk(s.ctl.gates, s.reqs)
    && InboxOk(s.toController, s.reqs, s.disposal.Closed?)
    && OutboxOk(s.toBrowser, s.reqs)
    && ReqsOk(s.reqs, s.disables, s.fetchOn, s.forgets)
    && NoEscape(s.ctl.gates, s.reqs, s.disables)
    && ArmedBound(s.ctl.gates, s.reqs)
    && Flow(s)
  }

  // -------- the answers of a finished gate --------

  /** They go to exactly the requests the gate held. */
  lemma {:induction false} AnswersFor(ids: seq<RequestId>, stage: Stage, fail: bool, intercept: bool, id: RequestId)
    ensures AnswerFor(Answers(ids, stage, fail, intercept), id)
            == if id in ids then Some(AnswerCommand(stage, fail, intercept, id)) else None
    decreases |ids|
  {
    var cmds := Answers(ids, stage, fail, intercept);
    if ids == [] {
      assert cmds == [];
    } else {
      assert cmds[1..] == Answers(ids[1..], stage, fail, intercept);
      AnswersFor(ids[1..], stage, fail, intercept, id);
      assert ids == [ids[0]] + ids[1..];
    }
  }
}
