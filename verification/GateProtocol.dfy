/**
 The request-gate controller of `evals/worlds/session-shell.ts`: what each
 event-loop turn does to the controller's own data, and which commands it
 sends over the debugger connection.  Every function here describes one turn,
 that is, the code that runs up to the next `await`.
 */
module GateProtocol {
  import opened Basics

  datatype Kind = Creation | Prompt
  datatype Stage = Request | Response

  /** An opaque request identity chosen by the browser. */
  type RequestId = nat

  datatype Gate = Gate(kind: Kind, stage: Stage, ids: seq<RequestId>, heldAt: Option<int>,
                       released: bool, failed: bool, expired: bool, timer: bool)

  datatype Command =
    | ContinueRequest(id: RequestId, interceptResponse: bool)
    | ContinueResponse(id: RequestId)
    | FulfillRequest(id: RequestId)
    | FetchEnable
    | FetchDisable

  /** On whose behalf a command was sent, and so who hears of its outcome: an answer
      on arrival, a caller, a gate's timer or the disposal finishing a gate, the
      switches, and the end of the connection, which nobody waits for. */
  datatype Origin = Arrival | Caller | Timer | Teardown | Suspending | Resuming | Disposing | Detaching

  datatype Controller = Controller(gates: seq<Gate>, creation: nat, prompt: nat,
                                   fetchEnabled: bool, disposed: bool, failure: bool)

  // -------- classification of a paused request --------

  predicate StartsWith(s: string, prefix: string) { prefix <= s }

  predicate EndsWith(s: string, suffix: string) {
    |suffix| <= |s| && s[|s| - |suffix|..] == suffix
  }

  const PROMPT_SUFFIX := "/prompt_async"

  /** `classify`: only POSTs count; a session base is a creation, a path below
      a base that ends in the prompt suffix is a prompt. */
  function Classify(isPost: bool, path: string, bases: seq<string>): Option<Kind> {
    if !isPost then None
    else if path in bases then Some(Creation)
    else if exists i :: 0 <= i < |bases| && StartsWith(path, bases[i] + "/") && EndsWith(path, PROMPT_SUFFIX)
    then Some(Prompt)
    else None
  }

  /** The path of a prompt below `base`: either some session path in between, or nothing at all. */
  ghost predicate PromptPath(path: string, base: string) {
    path == base + "/prompt_async" || exists session: string :: path == base + "/" + session + "/prompt_async"
  }

  lemma PromptSpelling(path: string, base: string)
    ensures StartsWith(path, base + "/") && EndsWith(path, PROMPT_SUFFIX) <==> PromptPath(path, base)
  {
    var b, p := |base|, |PROMPT_SUFFIX|;
    if StartsWith(path, base + "/") && EndsWith(path, PROMPT_SUFFIX) {
      assert path[..b + 1] == base + "/";
      if b + 1 + p <= |path| {
        var session := path[b + 1..|path| - p];
        assert path == base + "/" + session + PROMPT_SUFFIX;
      } else {
        // the two slashes are the same character: any other overlap puts a slash inside the suffix
        var at := |path| - p;
        assert at <= b;
        assert path[b] == (base + "/")[b] == '/';
        assert path[at..][b - at] == PROMPT_SUFFIX[b - at];
        assert b == at;
        assert path[..b] == base;
        assert path == path[..b] + path[b..];
      }
    }
    if path == base + PROMPT_SUFFIX {
      assert path[..b + 1] == base + "/";
      assert path[b..] == PROMPT_SUFFIX;
    } else if exists session: string :: path == base + "/" + session + PROMPT_SUFFIX {
      var session: string :| path == base + "/" + session + PROMPT_SUFFIX;
      assert path[..b + 1] == base + "/";
    }
  }

  /** A prompt is exactly a POST, not to a base itself, that spells a prompt path below some base. */
  lemma ClassifyPrompt(isPost: bool, path: string, bases: seq<string>)
    ensures Classify(isPost, path, bases) == Some(Prompt) <==>
            isPost && path !in bases && exists i :: 0 <= i < |bases| && PromptPath(path, bases[i])
  {
    forall i | 0 <= i < |bases|
      ensures StartsWith(path, bases[i] + "/") && EndsWith(path, PROMPT_SUFFIX) <==> PromptPath(path, bases[i])
    {
      PromptSpelling(path, bases[i]);
    }
  }

  /** A creation is exactly a POST to a base itself, and everything else is neither. */
  lemma ClassifyOthers(isPost: bool, path: string, bases: seq<string>)
    ensures Classify(isPost, path, bases) == Some(Creation) <==> isPost && path in bases
    ensures Classify(isPost, path, bases) == None <==>
            !isPost || (path !in bases && forall i :: 0 <= i < |bases| ==> !PromptPath(path, bases[i]))
  {
    ClassifyPrompt(isPost, path, bases);
  }

  // -------- finding gates --------

  predicate Open(g: Gate, kind: Kind, stage: Stage) {
    g.kind == kind && g.stage == stage && !g.released
  }

  /** Index of the first unreleased gate of this kind and stage, or the number of gates. */
  function FirstOpen(gates: seq<Gate>, kind: Kind, stage: Stage): (i: nat)
    ensures i <= |gates|
    ensures i < |gates| ==> Open(gates[i], kind, stage)
    ensures forall j :: 0 <= j < i ==> !Open(gates[j], kind, stage)
  {
    if gates == [] then 0
    else if Open(gates[0], kind, stage) then 0
    else 1 + FirstOpen(gates[1..], kind, stage)
  }

  predicate HasOpen(gates: seq<Gate>, kind: Kind, stage: Stage) {
    exists i :: 0 <= i < |gates| && Open(gates[i], kind, stage)
  }

  // -------- turns --------

  function ContinueCommand(stage: Stage, id: RequestId, interceptResponse: bool): Command {
    if stage == Response then ContinueResponse(id) else ContinueRequest(id, interceptResponse)
  }

  function Hold(g: Gate, id: RequestId, now: int): Gate {
    var ids := if id in g.ids then g.ids else g.ids + [id];
    if g.heldAt == None then g.(ids := ids, heldAt := Some(now), timer := true) else g.(ids := ids)
  }

  function Counted(c: Controller, kind: Kind, stage: Stage): Controller {
    if stage == Response then c
    else if kind == Creation then c.(creation := c.creation + 1)
    else c.(prompt := c.prompt + 1)
  }

  /** A `Fetch.requestPaused` message. */
  function OnPaused(c: Controller, id: RequestId, kind: Option<Kind>, stage: Stage, now: int): (Controller, seq<Command>) {
    match kind
    case None => (c, [ContinueCommand(stage, id, false)])
    case Some(k) =>
      var c1 := Counted(c, k, stage);
      var j := FirstOpen(c.gates, k, stage);
      if j == |c.gates|
      then (c1, [ContinueCommand(stage, id, stage == Request && HasOpen(c.gates, k, Response))])
      else (c1.(gates := c.gates[j := Hold(c.gates[j], id, now)]), [])
  }

  function FinishedGate(g: Gate, fail: bool): Gate {
    g.(released := true, failed := fail, timer := false)
  }

  function AnswerCommand(stage: Stage, fail: bool, interceptResponse: bool, id: RequestId): Command {
    if fail then FulfillRequest(id) else ContinueCommand(stage, id, interceptResponse)
  }

  function Answers(ids: seq<RequestId>, stage: Stage, fail: bool, interceptResponse: bool): (r: seq<Command>) {
    seq(|ids|, i requires 0 <= i < |ids| => AnswerCommand(stage, fail, interceptResponse, ids[i]))
  }

  /** `finishGate`: a gate answers what it holds once; later calls do nothing. */
  function Finish(c: Controller, j: nat, fail: bool): (Controller, seq<Command>)
    requires j < |c.gates|
  {
    var g := c.gates[j];
    if g.released then (c, [])
    else
      var gates := c.gates[j := FinishedGate(g, fail)];
      var intercept := !fail && g.stage == Request && HasOpen(gates, g.kind, Response);
      (c.(gates := gates), Answers(g.ids, g.stage, fail, intercept))
  }

  /** The gate's own 30 second timer. */
  function Expire(c: Controller, j: nat): (Controller, seq<Command>)
    requires j < |c.gates|
  {
    Finish(c.(gates := c.gates[j := c.gates[j].(expired := true)]), j, false)
  }

  function NewGate(kind: Kind, stage: Stage): Gate {
    Gate(kind, stage, [], None, false, false, false, false)
  }

  function Arm(c: Controller, kind: Kind, stage: Stage): Controller {
    if c.disposed then c else c.(gates := c.gates + [NewGate(kind, stage)])
  }

  /** Both throw once the controller has failed or is disposed; `suspend` also while anything is held. */
  predicate SuspendThrows(c: Controller) { c.disposed || c.failure || AnyActive(c.gates) }

  predicate ResumeThrows(c: Controller) { c.disposed || c.failure }

  /** The outcome of a command comes back and whoever waits for it goes on.  Callers
      and the disposal look after their own outcomes. */
  function OnReply(c: Controller, origin: Origin, ok: bool): Controller {
    match origin
    case Arrival => c.(failure := c.failure || !ok)
    case Timer => c.(failure := c.failure || !ok)
    case Suspending => c.(fetchEnabled := false)
    case Resuming => c.(fetchEnabled := true)
    case _ => c
  }

  /** The end of a disposal, however it comes about. */
  function Closing(c: Controller): Controller { c.(fetchEnabled := false, disposed := true) }

  predicate Active(g: Gate) { !g.released && g.ids != [] }

  predicate AnyActive(gates: seq<Gate>) {
    exists i :: 0 <= i < |gates| && Active(gates[i])
  }

  /** `read().activeGateCount` */
  function ActiveCount(gates: seq<Gate>): nat {
    if gates == [] then 0
    else ActiveCount(gates[..|gates| - 1]) + if Active(gates[|gates| - 1]) then 1 else 0
  }

  /** `read().activeHeldRequestCount` */
  function HeldCount(gates: seq<Gate>): nat {
    if gates == [] then 0
    else HeldCount(gates[..|gates| - 1]) + if Active(gates[|gates| - 1]) then |gates[|gates| - 1].ids| else 0
  }
}
