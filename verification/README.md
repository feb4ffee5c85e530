# Protocol machines and text transformations of the evaluation worlds

This project models the small protocols that the OmniRush evaluation worlds, the
documentation screenshots, the capture benchmark and the approval service rest
on, and proves what they promise over every run.  JavaScript's event loop is
modelled as atomic turns: a handler runs up to its next `await`, and turns
interleave freely.  Each protocol has

* a value-level description of one turn,
* the closed system of all its turns with an invariant every step keeps, and
  theorems about all reachable states and all continuations of a run, and
* where the source updates an object in place, a class with the source's fields
  whose methods are proved equal to those turns.

| module | component |
|---|---|
| `GateProtocol`, `GateSystem`, `GateFrames`, `GateSteps`, `GateRuns`, `GateFates`, `GateResults`, `GateEndings`, `GateDisposal`, `GateAborts`, `GateLedger`, `GateWitnesses`, `GateController` | the request-gate controller and the browser it drives, over a connection that keeps order in both directions |
| `SessionWitness` | the one-shot hold of session metadata reads |
| `SessionCreation` | the retry loop around a create that is not idempotent |
| `InstantRenderer` | the two-frames-in-a-row renderer timing |
| `FixtureClient` | the two request/reply clients |
| `Approvals` | the approval service |
| `ProviderContext`, `ProviderRuns`, `ProviderResults`, `ProviderFailures`, `ProviderCache` | the run-scoped provider cache and its disposal |
| `ShellQuoting` | the two quoting functions and the command lines built from them |
| `EventStream` | the incremental line reader and the printer it reads from |
| `ContinuityMonitor`, `StableCapture`, `ProcessTree`, `Manifest`, `HeldReply`, `TransportBody` | loops that refine a declarative specification |

## What turned out not to hold, and exactly when it does

* **An answer can miss, and the controller may then fail for good.**  Nothing guards
  against a pause that crosses a `suspend` on the connection: it is passed on too
  late (`CrossingPauseFails`).  An answer misses if and only if the browser has
  switched interception off since the pause it is for (`AnswerMissesIff`), and that
  is settled when the answer is sent (`FateSealed`).  The controller fails if and only
  if the answer was sent on arrival or by a timer (`FailureIff`); a caller's answer
  that misses fails nothing.  A failure is final (`FailedForGood`).  Conservation on
  the controller's side holds regardless (`PausesConserved`).
* **A gate can hold a request while interception is off** (`HeldWhileOff`).  Of what
  the gates hold, exactly that is still paused in the browser which paused since
  interception was last switched off (`EnabledIsTruthful`).
* **A response can pass an open response gate.**  `suspend` only refuses while a
  gate holds something, so it may switch interception off under a flying request
  (`SuspendLetsResponsePass`).  `StoppedOnArrivalIff` says over whole runs exactly
  when a response is stopped; nothing escapes as long as interception has not been
  switched off since the request paused (`ResponseNeverEscapes`).
* **Disposal can leave a request held by arming.**  If a gate is armed while the
  final disable is on its way, it can catch a crossing pause (`DisposedWhileHolding`);
  `DisposeLeavesNothing` has the exact condition, and without arming nothing is left
  unless the disposal is aborted (`DisposeWithoutArming`).
* **Disposal can be aborted by an answer of its own that misses**, before it comes to
  the other gates (`AbortedDisposalHolds`).  From any state before the disposal is
  through with its gates, and with nobody suspending any more, `AbortedIff` has the
  exact condition, arming included, and `AbortedFromQuietIff` the one without arming
  when nothing is on the connection: every held request must have paused since
  interception was last switched off.  Gate by gate, draining aborts if and only if
  something the gate holds is late (`GateAbortsIff`), and the abortion leaves nothing
  held if and only if no other gate holds anything and no wanted pause can come first
  (`AbortLeavesNothing`).  In the browser nothing stays paused either way
  (`InTheEndNothingPaused`).
* **A session id that does not decode gets stuck.**  `decodeURIComponent` throws
  out of the handler and the request is neither held nor continued
  (`MalformedIdIsStuck`); `ContinuedOnArrivalIff` has the exact condition, and over
  every run exactly those requests get stuck (`StuckIsUndecoded`).
* **A repeated approval id hides a requester.**  The earlier one is settled
  only by its timer; `list` stays complete if and only if the new id is not
  pending (`AskKeepsCompleteIff`).  Every requester is still settled once.
* **A stray connection's end fails every request.**  In the loopback client a
  connection that was accepted before the token was shown, and never shows it,
  rejects all pending requests when it closes (`StrayCloseSettlesAll`).  A request is
  safe from that, whatever happens afterwards, if and only if no connection but the
  client's own is open when it is made (`SafeFromStrangersIff`).
* **A dependent's cleanup need not run before its dependency's.**  If the load had
  waited for the dependency when it registered the cleanup, it does if and only if it
  was registered before the disposal began (`DependentsFirst`).  If it registers
  first and uses the dependency later, which nobody has started, its cleanup runs
  after the dependency's, unless that one was registered during the disposal
  (`RegisteredBeforeUse`).
* **An armed hold can catch a request after disposal.**  The reply provider goes
  on answering while its server stops; nothing is held again if and only if no
  hold was armed at the disposal (`NothingHeldAfterIff`).
* **The process walk ends exactly when the root is not its own descendant**
  (`Tree`, `LoopNeverEnds`).

## Model

| member | source | states |
|---|---|---|
| GateProtocol.PromptSpelling | evals/worlds/session-shell.ts:264-269 | the prefix and suffix tests accept exactly base + suffix, or base, slash, any session text, suffix |
| GateProtocol.ClassifyPrompt | evals/worlds/session-shell.ts:264-269 | a prompt is exactly a POST, not to a base itself, whose path spells a prompt path below some base |
| GateProtocol.ClassifyOthers | evals/worlds/session-shell.ts:264-269 | a creation is exactly a POST to a base itself; neither is exactly what is no POST, or neither a base nor a prompt path below one |
| GateProtocol.FirstOpen | evals/worlds/session-shell.ts:319 | the unreleased gate found is the first of its kind and stage, none if there is none |
| GateSystem.AnswersFor | evals/worlds/session-shell.ts:276-292 | a finished gate sends an answer to exactly the requests it held |
| GateSteps.FinishEffect | evals/worlds/session-shell.ts:270-293 | the whole effect of finishing or expiring an unreleased gate: its flags, an answer on its way to every request it held, in order, and nothing else |
| GateSteps.PassEffect | evals/worlds/session-shell.ts:313-328 | the whole effect of a pause that no gate wants: one answer goes out, asking for the response if a response gate is open |
| GateSteps.AnswerEffect | evals/worlds/session-shell.ts:276-292 | what an answer does when the browser comes to it: it finds its request paused exactly if interception has not been switched off since, and its outcome is sent back |
| GateSteps.FinishKeeps | evals/worlds/session-shell.ts:270-293 | finishing or expiring a gate keeps the system invariant |
| GateSteps.HoldKeeps | evals/worlds/session-shell.ts:319-336 | holding a pause keeps the invariant, at any time, also while a disable is on its way |
| GateSteps.PassKeeps | evals/worlds/session-shell.ts:313-328 | passing a pause on keeps the invariant, at any time |
| GateSteps.ReplyKeeps | evals/worlds/session-shell.ts:301-305 | the outcome of a command keeps the invariant: it records a failure, sets the flag, ends a disposal or aborts it |
| GateSteps.DisableKeeps | evals/worlds/session-shell.ts:400 | the browser's switching interception off keeps the invariant |
| GateSteps.SuspendKeeps | evals/worlds/session-shell.ts:392-402 | sending a suspend keeps the invariant |
| GateSteps.ResumeKeeps | evals/worlds/session-shell.ts:403-409 | sending a resume keeps the invariant |
| GateSteps.DisposeNextKeeps | evals/worlds/session-shell.ts:410-424 | every round of the disposal keeps the invariant |
| GateSteps.ArmKeeps | evals/worlds/session-shell.ts:352-358 | arming a gate, also during a disposal, keeps the invariant |
| GateSteps.StepKeeps | evals/worlds/session-shell.ts:245-425 | every step of the closed system, with messages and commands in flight, keeps the invariant |
| GateRuns.StepFollows | evals/worlds/session-shell.ts:270-337 | no step takes back a release, a verdict or a refusal, forgets a gate or a request, or changes what was decided when a request was let go on; a refusal is new only under a failed gate, a verdict only with the refusals it sends |
| GateResults.PausesConserved | evals/worlds/session-shell.ts:270-337 | in every reachable state, whatever crosses on the connection: each handled pause has been answered once or is held now, by exactly one unreleased gate; each answer has hit, missed or is on its way; each announced pause has been handled or is on its way |
| GateFates.AnswerMissesIff | evals/worlds/session-shell.ts:276-328 | an answer misses if and only if the browser has switched interception off since the pause it is for, and exactly then an error is recorded and comes back |
| GateFates.FateSealed | evals/worlds/session-shell.ts:276-328 | whatever happens until the browser comes to an answer, it misses if and only if a disable lies between its pause and it |
| GateFates.NothingMissesWhileOn | evals/worlds/session-shell.ts:276-328 | as long as interception has not been switched off, no answer misses, nothing fails and no disposal is aborted |
| GateFates.FailureIff | evals/worlds/session-shell.ts:323-334 | the controller has failed, or an error that makes it fail is on its way, if and only if an answer sent on arrival or by a timer has missed; likewise a disposal is aborted exactly for an answer of its own; and what has missed lies before the last disable |
| GateFates.FailedForGood | evals/worlds/session-shell.ts:381-404 | once failed, suspend and resume throw after every continuation |
| GateResults.HeldUntilTimeout | evals/worlds/session-shell.ts:330-336 | whatever is held has a running timer, and its firing sends everything an answer and marks the gate expired, not failed |
| GateResults.GatesTakeTurns | evals/worlds/session-shell.ts:319-336 | a later gate of the same sort holds something only after the earlier is released, and the two are never active together |
| GateResults.FlagsTellOneStory | evals/worlds/session-shell.ts:270-336 | of every gate: its timer runs exactly while it holds something, the moment of holding is noted exactly if it ever held something, and expired and failed exclude each other and imply released |
| GateResults.AtMostFourActive | evals/worlds/session-shell.ts:381-391 | the reported number of active gates never exceeds four, one per kind and stage |
| GateResults.ContinuedWithInterception | evals/worlds/session-shell.ts:277-326 | every step that lets a request go on asks for its response exactly if a response gate of its kind is open |
| GateResults.ResponseNeverEscapes | evals/worlds/session-shell.ts:277-336 | over whole runs, the response of a request let go on under an open response gate is not delivered before that gate or an earlier one that stopped it is finished, as long as interception has not been switched off since the request paused; while stopped it is held no later than by that gate |
| GateResults.StoppedOnArrivalIff | evals/worlds/session-shell.ts:277-336 | over whole runs and without proviso: such a response is stopped when it arrives if and only if the answer had reached the request and interception is on, for a browser that forgets without interruption, and is delivered otherwise |
| GateResults.HeldOnDeliveryIff | evals/worlds/session-shell.ts:319-336 | a handled pause is held if and only if a gate is open for it, by the first such gate, and otherwise answered at once |
| GateResults.HeldAtTheEnd | evals/worlds/session-shell.ts:329-336 | a pause that is held is added at the end of what its gate holds, and only the first one sets the moment of holding |
| GateResults.EnabledIsTruthful | evals/worlds/session-shell.ts:387-409 | with no acknowledgement of a switch undelivered the reported flag is what the browser does; without interception nothing is paused in the browser; what is held is still paused exactly if it paused since interception was last switched off |
| GateResults.SuspendSendsIff | evals/worlds/session-shell.ts:392-402 | in every reachable state, a suspend puts its disable on the connection if and only if the flag is on, the disposal is not closed, nothing has failed and no gate holds anything; otherwise nothing changes, and it throws unless only the flag is off |
| GateResults.ResumeSendsIff | evals/worlds/session-shell.ts:403-409 | in every reachable state, a resume puts its enable on the connection if and only if the flag is off, the disposal is not closed and nothing has failed, whatever is held |
| GateEndings.EndStep | evals/worlds/session-shell.ts:410-421 | between the rounds of a disposal no step changes whether its end is sealed on the connection; handling the end closes it, aborted exactly if gates were still being drained |
| GateEndings.EndIsSealed | evals/worlds/session-shell.ts:410-421 | once the end is sealed, every continuation has closed the connection that way or is still waiting for it |
| GateDisposal.DisposeWithoutArming | evals/worlds/session-shell.ts:410-424 | if no gate is armed from the disposal on, it leaves nothing held, whatever crosses, unless it is aborted |
| GateDisposal.SealedEndLeavesNothing | evals/worlds/session-shell.ts:352-424 | once the end is sealed, an abortion included, nothing is left held by any continuation if and only if nothing is held now and no wanted pause can reach the controller before it |
| GateDisposal.DisposeLeavesNothing | evals/worlds/session-shell.ts:352-424 | a drained disposal leaves nothing held, even if gates are armed meanwhile, if and only if not (the flag says enabled, and interception is on or about to be or a wanted pause is on its way) |
| GateDisposal.DisposedWhileHolding | evals/worlds/session-shell.ts:352-424 | the bad case is reachable: a run that ends closed with a held request |
| GateDisposal.InTheEndNothingPaused | evals/worlds/session-shell.ts:417-421 | after the end, aborted or not, once the browser has processed what was sent, interception is off and nothing is paused in it |
| GateAborts.AbortedIff | evals/worlds/session-shell.ts:392-421 | from any state before the disposal is through with its gates: if nobody suspends any more, no run aborts it, arming included, if and only if no abortion is sealed, nothing held or about to be caught is late, and no pause can come in ahead of a disable on its way |
| GateAborts.AbortedFromQuietIff | evals/worlds/session-shell.ts:410-421 | with nothing on the connection, and nobody arming or suspending, no run aborts the disposal if and only if everything held has paused since interception was last switched off |
| GateAborts.CalmDisposalLeavesNothing | evals/worlds/session-shell.ts:410-421 | a disposal called when no abortion is ahead, with nobody arming or suspending, is not aborted and leaves nothing held |
| GateAborts.GateAbortsIff | evals/worlds/session-shell.ts:412-416 | draining the next gate aborts the disposal, whatever happens, if and only if something it holds is late when its answer is sent; otherwise nothing ends the disposal before its next round |
| GateAborts.AbortLeavesNothing | evals/worlds/session-shell.ts:412-421 | a disposal bound to be aborted leaves nothing held by any continuation if and only if no other gate holds anything and no wanted pause can come before the error |
| GateWitnesses.SuspendLetsResponsePass | evals/worlds/session-shell.ts:392-402 | a run in which a suspend lets the response pass an open gate that holds nothing |
| GateWitnesses.CrossingPauseFails | evals/worlds/session-shell.ts:323-402 | a run in which a pause that crosses a suspend is answered too late and the controller fails |
| GateWitnesses.HeldWhileOff | evals/worlds/session-shell.ts:329-402 | a run after which a gate holds a request that the browser has let go, with interception off and everything acknowledged |
| GateWitnesses.AbortedDisposalHolds | evals/worlds/session-shell.ts:412-421 | a run in which a disposal's own answer misses and the gates it has not come to still hold |
| GateLedger.RefusedIff | evals/worlds/session-shell.ts:270-292 | over every run, the page is refused exactly the requests that a failed gate was holding and whose answers have all reached them |
| GateLedger.HeldCountIsSize | evals/worlds/session-shell.ts:383-389 | adding up what the active gates hold counts each held request once |
| GateLedger.ReadIsTrue | evals/worlds/session-shell.ts:318-391 | at any time the reported creations and prompts are the numbers of such requests the controller has heard of, and the reported held requests those it has handled without an answer |
| GateController.Controller.Find | evals/worlds/session-shell.ts:319 | the search returns the first unreleased gate of this kind and stage |
| GateController.Controller.ResponseGateOpen | evals/worlds/session-shell.ts:321-322 | whether an unreleased response gate of this kind exists |
| GateController.Controller.OnPaused | evals/worlds/session-shell.ts:306-337 | the message handler changes the gates and counters, and sends, exactly what the turn says |
| GateController.Controller.FinishGate | evals/worlds/session-shell.ts:270-293 | finishing a gate sends one answer for each held request, in order, and changes that gate only; a second call does nothing |
| GateController.Controller.ExpireGate | evals/worlds/session-shell.ts:332-335 | the timer callback marks the gate expired and releases it |
| GateController.Controller.Arm | evals/worlds/session-shell.ts:352-358 | a new empty gate at the end, or the exception once disposed |
| GateController.Controller.Read | evals/worlds/session-shell.ts:381-391 | the counters, the flag and the counts of active gates and held requests, or the exception once failed |
| GateController.Controller.OnReply | evals/worlds/session-shell.ts:301-334 | an outcome sets the flag or records the failure, and changes nothing else |
| GateController.Controller.Suspend | evals/worlds/session-shell.ts:392-402 | throws exactly when disposed, failed or while an unreleased gate holds anything, and sends the disable exactly when it does not throw and the flag is on |
| GateController.Controller.Resume | evals/worlds/session-shell.ts:403-409 | throws exactly when disposed or failed, and sends the enable exactly when it does not throw and the flag is off |
| GateController.Controller.DisposeNext | evals/worlds/session-shell.ts:412-421 | one round of the disposal: the next gate, the final disable, or the end |
| GateController.Controller.Close | evals/worlds/session-shell.ts:417-421 | the end of a disposal, however it comes about |
| SessionWitness.SessionSegment | evals/worlds/session-shell.ts:1670-1674 | what counts as a session read is a path of exactly one non-empty segment below a prefix |
| SessionWitness.SegmentIff | evals/worlds/session-shell.ts:1670-1674 | there is such a segment if and only if something non-empty without a slash follows the first prefix that the path is below |
| SessionWitness.StepKeeps | evals/worlds/session-shell.ts:1635-1693 | every step keeps the invariant; what is held stays held and what is released stays released |
| SessionWitness.OneHeldOthersContinued | evals/worlds/session-shell.ts:1635-1683 | over every run the paused requests split, with multiplicity, into those continued, at most one held, and those whose id did not decode; a request once held is the only one ever held |
| SessionWitness.ReleasedOnce | evals/worlds/session-shell.ts:1635-1640 | whichever of caller and timer comes first continues the held request, the other then continues nothing |
| SessionWitness.HoldEnds | evals/worlds/session-shell.ts:1676-1678 | the timer runs exactly while something is held, unreleased and not cut short by a disposal, and its firing ends the hold |
| SessionWitness.ContinuedOnArrivalIff | evals/worlds/session-shell.ts:1666-1683 | by the state it arrives in, a request is held if and only if it is the first wanted read, due 1.5 seconds after it started; stuck if and only if its id does not decode; and continued at once if and only if neither |
| SessionWitness.StuckIsUndecoded | evals/worlds/session-shell.ts:1673-1675 | over every run, the requests that get stuck are exactly the arrivals that are looked at and do not decode, in order |
| SessionWitness.RecordedExactly | evals/worlds/session-shell.ts:1684-1692 | over every run, from any state, the requests recorded are exactly those announced whose path is a prefix or goes on below one after a slash, in order |
| SessionWitness.MalformedIdIsStuck | evals/worlds/session-shell.ts:1673-1675 | a run from the start in which a malformed percent escape throws out of the handler and leaves its request neither held nor continued |
| SessionWitness.Observer.OnWillBeSent | evals/worlds/session-shell.ts:1684-1692 | a request is recorded, at the end, exactly if its path is a prefix or goes on below one after a slash |
| SessionWitness.Observer.OnPaused | evals/worlds/session-shell.ts:1666-1683 | the handler holds, continues or throws exactly as the turn says |
| SessionWitness.Observer.ReleaseMetadata | evals/worlds/session-shell.ts:1635-1640 | a release continues the held request once and stops the timer |
| SessionCreation.FindMeans | evals/worlds/session-shell.ts:1834-1841 | the search finds a session of the title if and only if there is one |
| SessionCreation.FindFirst | evals/worlds/session-shell.ts:1834-1841 | what is found is the id of the first session of the title, unless that id is empty |
| SessionCreation.OnlyAdds | evals/worlds/session-shell.ts:1844-1860 | only sessions of the title are added, and a returned id belongs to one of that title |
| SessionCreation.CommitsBounded | evals/worlds/session-shell.ts:1844-1859 | every commit beyond the first needs two failed lists |
| SessionCreation.CleanRun | evals/worlds/session-shell.ts:1844-1860 | with no failed list and a fresh title: at most one commit, it is the one returned, and an error means that nothing was committed |
| SessionCreation.ErrorIff | evals/worlds/session-shell.ts:1843-1860 | the call fails if and only if, at each of the four attempts, the create is not acknowledged and each list fails or finds the server without a session of the title |
| SessionCreation.ErrorTriesAll | evals/worlds/session-shell.ts:1843-1860 | a failing call has made all four creates, each commit adding its session, and all eight lists |
| SessionCreation.FreshTitle | evals/worlds/session-shell.ts:1825-1861 | for a fresh title, all of it together: at most 1 + failures/2 commits, the returned session is new, and without failures it is the only one |
| SessionCreation.Duplicates | evals/worlds/session-shell.ts:1844-1859 | the bound is met: with 2k failed lists the loop can create k duplicates, all different sessions |
| SessionCreation.CreateOutsideWindow | evals/worlds/session-shell.ts:1843-1860 | the loop against a mutable server computes the specified outcome |
| InstantRenderer.TimingExact | evals/worlds/session-shell.ts:135-156 | the clock starts at the first qualifying input and stops for good at the first later frame that is ready right after a ready frame; before that there is no such frame; the frames counted are those from the start to the stop |
| InstantRenderer.Observer.TakeSample | evals/worlds/session-shell.ts:135-140 | one frame is counted and timed as the turn says |
| InstantRenderer.Observer.Capture | evals/worlds/session-shell.ts:142-156 | the first qualifying input starts the clock, later ones do nothing |
| FixtureClient.StepKeeps | evals/worlds/computer-use.ts:22-60 | every event keeps: pending ids are exactly the unsettled ones handed out, each with a live timer, and no settlement is taken back |
| FixtureClient.SettledExactlyOnce | evals/worlds/computer-use.ts:22-60 | over every run each id is pending with a live timer or settled exactly once, and stays settled as it was |
| FixtureClient.SettledByItsOwn | evals/worlds/computer-use.ts:25-51 | a request is settled only by a reply with its own id, with that reply's outcome, by its own timer, or by a failure of all |
| FixtureClient.LateRepliesIgnored | evals/worlds/computer-use.ts:28-29 | a reply to a settled or unknown id changes nothing, and a pending request can always time out |
| FixtureClient.WrittenUnderOwnId | evals/worlds/computer-use.ts:44-50 | over every run the requests written are numbered 1, 2, and so on in the order in which they are made, so whatever is pending has been written under its own id |
| FixtureClient.CancelAnnouncesAll | evals/worlds/computer-use.ts:40-42 | a cancellation announces every pending request once, in the order of the table, and does nothing else |
| FixtureClient.TailStep | evals/worlds/computer-use.ts:21 | cutting the kept error text after every chunk keeps the same text as cutting once at the end |
| FixtureClient.TailMeans | evals/worlds/computer-use.ts:21 | what is kept are the last 2000 characters, everything if there are no more |
| FixtureClient.NativeRefines | evals/worlds/computer-use.ts:81-109 | every run of the loopback client is a run of the pipe client's table, so the same promises hold |
| FixtureClient.RepliesAreAuthenticated | evals/worlds/computer-use.ts:83-97 | over every run only lines of connections that have shown the token are taken for replies, and connecting or showing it settles nothing |
| FixtureClient.StrangerSettlesIff | evals/worlds/computer-use.ts:81-108 | over every run, some request is settled by a close that is none of its business if and only if a connection other than the client's own closes while something is pending |
| FixtureClient.SafeFromStrangersIff | evals/worlds/computer-use.ts:81-108 | a request is safe from that, whatever happens afterwards, if and only if no other connection is open when it is made, since none is accepted after the token was shown |
| FixtureClient.StrayCloseSettlesAll | evals/worlds/computer-use.ts:81-98 | a run in which a connection accepted before the token was shown settles everything when it closes, while the client's own is open |
| FixtureClient.PendingTable.Ask | evals/worlds/computer-use.ts:44-51 | a request enters the table under the next id with its timer, and is written out under that id |
| FixtureClient.PendingTable.CancelPending | evals/worlds/computer-use.ts:40-42 | one cancellation is written for each pending request, in order, and the table stays as it is |
| FixtureClient.PendingTable.OnLine | evals/worlds/computer-use.ts:25-33 | a reply settles its own pending request and nothing else |
| FixtureClient.PendingTable.OnTimeout | evals/worlds/computer-use.ts:47 | a timeout removes and rejects its own request |
| FixtureClient.PendingTable.FailAll | evals/worlds/computer-use.ts:34-37 | every pending request is rejected once, in order, its timer cleared, and the table emptied |
| Approvals.Put | apps/server/src/approvals.ts:47 | a new id goes to the end of the table |
| Approvals.Delete | apps/server/src/approvals.ts:57 | exactly the entries with this id go |
| Approvals.Get | apps/server/src/approvals.ts:54-55 | something is found if and only if the id is in the table |
| Approvals.StepKeeps | apps/server/src/approvals.ts:28-65 | every event keeps: each requester waits with a live timer or is settled once; nothing settled changes |
| Approvals.EachSettlesOnce | apps/server/src/approvals.ts:41-65 | over every run and any ids, each requester waits with a live timer or is settled exactly once, for good |
| Approvals.AllowedOnlyIfSaid | apps/server/src/approvals.ts:31-62 | nothing is allowed without an allowing reply to that id, or auto mode |
| Approvals.RespondTellsRequester | apps/server/src/approvals.ts:53-65 | a reply says something if and only if the id is pending, then exactly what the waiting requester receives, and the id is gone |
| Approvals.ToldAboutOwnId | apps/server/src/approvals.ts:34-64 | whatever ids are drawn, a requester is only ever told about its own id: allowed, denied or timed out |
| Approvals.AskKeepsCompleteIff | apps/server/src/approvals.ts:41-48 | a new request keeps the list complete if and only if its id is not pending |
| Approvals.ListIsComplete | apps/server/src/approvals.ts:24-65 | with fresh ids the list is at any time all unsettled requests in order of creation, and requests are conserved as pending or settled |
| Approvals.FromTheStart | apps/server/src/approvals.ts:16-66 | from an empty service with fresh ids: the list is complete and in order, every request is listed or settled, and each verdict answers the requester's own id |
| Approvals.AutoFromTheStart | apps/server/src/approvals.ts:31-33 | over every run of a service in auto mode, each request is allowed at once, in order, under the id "auto" and without a reason, and nothing is ever pending |
| Approvals.StepSettles | apps/server/src/approvals.ts:41-65 | over every run, a request settles nobody, a reply settles the requester its id is pending for, as it says, and a timer its own requester, who is told the id it asked for, a refusal and the reason "timeout" |
| Approvals.ApprovalService.List | apps/server/src/approvals.ts:24-26 | the table's ids in order |
| Approvals.ApprovalService.RequestApproval | apps/server/src/approvals.ts:28-51 | in auto mode a request is settled at once as allowed under the id "auto", otherwise it enters the table with its timer and settles nobody |
| Approvals.ApprovalService.OnTimeout | apps/server/src/approvals.ts:42-45 | the timer denies its own requester, under its own id and with the reason "timeout", and deletes what that id names |
| Approvals.ApprovalService.Respond | apps/server/src/approvals.ts:53-65 | a reply settles the pending requester of the id, or returns nothing |
| ProviderContext.UseGood | evals/docs-shots/ctx.ts:16-22 | using a provider, with everything its load does up to its first await, keeps the cache's invariant and only adds to it |
| ProviderContext.AdvanceGood | evals/docs-shots/ctx.ts:16-26 | a load's turn registers its cleanups after those of everything it waited for |
| ProviderRuns.StepKeeps | evals/docs-shots/ctx.ts:16-37 | every step, loading or disposing, keeps the invariant of the cache and the books of the cleanups |
| ProviderResults.LoadedOnce | evals/docs-shots/ctx.ts:16-22 | however callers and loads interleave, each provider asked for is loaded exactly once, and a resolved load's dependencies are loaded, those awaited resolved |
| ProviderResults.FailureHasCause | evals/docs-shots/ctx.ts:16-22 | the chain of awaits at which a failed load stands ends at a load that throws |
| ProviderResults.SomebodyCanResume | evals/docs-shots/surfaces.ts:113-125 | no deadlock: the chain of awaits at which a suspended load stands ends at one that can go on |
| ProviderResults.ResumesBounded | evals/docs-shots/ctx.ts:16-22 | under every schedule the number of load turns is bounded by the work at the start |
| ProviderResults.UseSettles | evals/docs-shots/ctx.ts:16-22 | so loading ends: no load can go on if and only if everything asked for has settled |
| ProviderResults.CleanupsRunOnce | evals/docs-shots/ctx.ts:24-37 | at any time, with loads still going on, disposal repeated or not and cleanups failing or not, each registered cleanup has run once or is still due once |
| ProviderResults.DisposalOrder | evals/docs-shots/ctx.ts:28-37 | however its cleanups end, one disposal runs the cleanups there were, last registered first, then those registered meanwhile in order, and empties the list |
| ProviderResults.DependentsFirst | evals/docs-shots/ctx.ts:28-37 | a cleanup runs before those of a provider it depends on if and only if it was registered before the disposal began |
| ProviderResults.CleanupOrder | evals/docs-shots/ctx.ts:28-37 | of any two cleanups of one disposal the one registered earlier runs earlier if and only if the other was registered during the disposal |
| ProviderResults.RegisteredBeforeUse | evals/docs-shots/ctx.ts:28-37 | a cleanup registered before its load uses a dependency that nobody has started runs before the cleanup of that dependency if and only if the latter was registered during the disposal |
| ProviderFailures.LogIsExact | evals/docs-shots/ctx.ts:30-34 | over every run the log holds exactly the cleanups that threw, in order |
| ProviderCache.Context.OnDispose | evals/docs-shots/ctx.ts:24-26 | a cleanup is added at the end |
| ProviderCache.Context.Use | evals/docs-shots/ctx.ts:16-22 | what is remembered is handed out; otherwise the load runs to its first await and is then remembered |
| ProviderCache.Context.Run | evals/docs-shots/surfaces.ts:113-138 | a load's own code, nested uses and registrations included, up to its next await |
| ProviderCache.Context.Resume | evals/docs-shots/surfaces.ts:114-116 | a load goes on after its await, or fails with what it awaited |
| ProviderCache.Context.DisposeStart | evals/docs-shots/ctx.ts:29 | the list is reversed in place |
| ProviderCache.Context.DisposeNext | evals/docs-shots/ctx.ts:29-36 | the walk takes the next cleanup of the live list, logs its error if it throws and goes on, and clears the list at its end |
| ShellQuoting.QuoteReads | evals/worlds/first-run.ts:715-717 | a quoted value adds exactly itself to the word being read, whatever comes before and after |
| ShellQuoting.QuoteRoundTrip | evals/worlds/models-analytics.ts:17 | the shell reads either quoting function's result as one word equal to the value |
| ShellQuoting.QuoteSpelling | evals/worlds/first-run.ts:715-717 | how both ways of quoting are spelled: single quotes around everything, and in place of each inner one the five or four characters that close, quote and reopen |
| ShellQuoting.JoinRoundTrip | evals/worlds/models-analytics.ts:69 | quoted arguments joined by blanks read back as exactly the list |
| ShellQuoting.RemoteCommandRoundTrip | evals/worlds/first-run.ts:719-721 | the remote login shell gets exactly the command, however it is written |
| ShellQuoting.RemoteCommandParts | evals/worlds/first-run.ts:719-721 | the list has four elements: "exec", the sandbox, "--" and the login shell command |
| ShellQuoting.ChmodSurvivesTwoShells | evals/worlds/first-run.ts:357-363 | a path quoted for the inner shell arrives there unchanged through two shells |
| ShellQuoting.NestedQuoting | evals/worlds/first-run.ts:715-721 | quoting survives any depth of nesting |
| ShellQuoting.ArrangeRoundTrip | evals/worlds/models-analytics.ts:66-69 | the whole remote line reads as the change of directory, then `env` with every setting and argument intact |
| EventStream.LinesReassemble | evals/worlds/title-recovery.ts:118-120 | lines and leftover reassemble the text; neither contains a line feed |
| EventStream.LinesExtend | evals/worlds/title-recovery.ts:117-120 | more text only completes the leftover |
| EventStream.CutsDoNotMatter | evals/worlds/title-recovery.ts:112-127 | feeding chunk by chunk is feeding the whole text, wherever the cuts are |
| EventStream.Reader.Feed | evals/worlds/title-recovery.ts:115-126 | one round of the reader takes exactly the complete lines and keeps the leftover |
| EventStream.LineMeans | evals/worlds/title-recovery.ts:121-124 | a line without the literal data field changes nothing; of one with it, what follows is parsed and kept, passed over or breaks the reader |
| EventStream.ReadIsMeaning | evals/worlds/title-recovery.ts:119-125 | any lines whatever are taken in as the payloads of those with the data field, in order |
| EventStream.ReadAll | evals/worlds/title-recovery.ts:111-128 | the whole loop reads exactly the lines of the whole text |
| EventStream.SendStream | evals/worlds/omnirush-server-cli.ts:30-34 | the printer writes one frame after the other and then the end marker |
| EventStream.StreamSpelling | evals/worlds/omnirush-server-cli.ts:30-34 | what the printer writes, literally, for each payload and at the end |
| EventStream.StreamMeaning | evals/worlds/omnirush-server-cli.ts:30-34 | however cut and whatever the payloads mean to it, the reader takes in exactly the payloads in order and then the end marker |
| EventStream.StreamRoundTrip | evals/worlds/omnirush-server-cli.ts:30-34 | the newline-free payloads come back in order, then the marker, with nothing left over |
| EventStream.MarkerBreaks | evals/worlds/title-recovery.ts:121-122 | for a reader that cannot parse the end marker, all updates arrive before the error |
| ContinuityMonitor.ViolationsIff | evals/worlds/chat-continuity.ts:75-80 | what a sample violates: starters, an early loader, each forbidden text shown, each required text missing, nothing else |
| Basics.IncludesIff | evals/worlds/chat-continuity.ts:78-79 | inclusion is occurrence at some position |
| ContinuityMonitor.DedupMeans | evals/worlds/chat-continuity.ts:81-83 | keeping new violations keeps each once, in first-seen order |
| ContinuityMonitor.MonitorExact | evals/worlds/chat-continuity.ts:55-84 | after any samples the monitor holds exactly what those from the first selection on determine: violations, loader flag, counts and elapsed time; earlier samples leave no trace |
| ContinuityMonitor.KeptIff | evals/worlds/chat-continuity.ts:81-83 | a violation is kept if and only if some sample from the selection on has it, and once |
| ContinuityMonitor.Monitor.TakeSample | evals/worlds/chat-continuity.ts:55-84 | one sample updates the fields as the turn says |
| StableCapture.CaptureUntil | evals/docs-shots/loop.ts:8-32 | the captured frame is the first that repeats an accepted predecessor's picture or ends a run of five accepted frames; it fails if and only if there is none |
| StableCapture.AnimatedThroughout | evals/docs-shots/loop.ts:18-22 | in the five-frame case all neighbouring pictures of the run differ and the run had just begun |
| ProcessTree.BuildChildren | scripts/capture-efficiency-bench/measure_tree.py:9-15 | the dictionary has exactly the parents, each with its children in order |
| ProcessTree.ChildrenInOrder | scripts/capture-efficiency-bench/measure_tree.py:9-15 | the children of a process are listed in the order of the table |
| ProcessTree.Tree | scripts/capture-efficiency-bench/measure_tree.py:16-19 | unless the root is its own descendant, the walk ends with exactly the root and all its descendants, each once |
| ProcessTree.LoopNeverEnds | scripts/capture-efficiency-bench/measure_tree.py:17-18 | the condition is exact: otherwise the worklist is never empty, after any number of rounds |
| ProcessTree.Measure | scripts/capture-efficiency-bench/measure_tree.py:23-30 | the peak is the greatest total, the kept tree that of the first sample reaching it if it is positive, and the process count the greatest of all samples |
| Manifest.Check | evals/docs-shots/manifest.ts:109-127 | the four loops report exactly the problems of shots, outputs, images and allowlist, in order |
| Manifest.CleanIffSound | evals/docs-shots/manifest.ts:109-127 | nothing is reported if and only if outputs are in scope, referenced and distinct and the images are the disjoint union of outputs and allowlist |
| Manifest.ReportedIff | evals/docs-shots/manifest.ts:105-127 | each kind of problem is reported, with its detail, if and only if the shots, images, pages and allowlist have it; outputs are taken without the image directory |
| Manifest.ReportedInTurn | evals/docs-shots/manifest.ts:109-127 | the problems come in the order of the checks |
| Manifest.CleanCounts | evals/docs-shots/manifest.ts:129-133 | a clean report means as many images as scenes and allowlisted ones together |
| HeldReply.StepKeeps | evals/worlds/best-practices.ts:132-159 | every event keeps: held means captured without a reply, completed means replied to once under the request's own number, and what was recorded stays |
| HeldReply.RepliedOnce | evals/worlds/best-practices.ts:143-154 | over every run each request is replied to at most once under its number of arrival |
| HeldReply.RecordedInOrder | evals/worlds/best-practices.ts:139-140 | over every run the requests recorded are the chats, in order, each with its body and kind |
| HeldReply.OneCaptureEach | evals/worlds/best-practices.ts:149-153 | captures and the hold still waiting add up to the holds armed |
| HeldReply.CapturesFirst | evals/worlds/best-practices.ts:149-153 | over every run, the h-th arm catches the first later chat that is no title request, under its number of arrival, and nothing while there is none |
| HeldReply.CaughtIff | evals/worlds/best-practices.ts:149-154 | a chat is caught if and only if a hold is armed and it is no title request; otherwise it is answered at once |
| HeldReply.DisposeCompletesAll | evals/worlds/best-practices.ts:189-190 | a disposal completes every held request, so every recorded request has its reply |
| HeldReply.NothingHeldAfterIff | evals/worlds/best-practices.ts:189-192 | nothing is held again after a disposal, with no new hold armed, if and only if none was armed at it |
| HeldReply.Witness.Receive | evals/worlds/best-practices.ts:139-154 | a chat is recorded, then caught or answered |
| HeldReply.Witness.Reply | evals/worlds/best-practices.ts:143-148 | a reply is sent once, under the request's number |
| HeldReply.Witness.HoldNextReply | evals/worlds/best-practices.ts:226-229 | refuses exactly while a hold is armed |
| HeldReply.Witness.Dispose | evals/worlds/best-practices.ts:189-190 | releases everything held, oldest first |
| TransportBody.Generate | scripts/capture-efficiency-bench/generate_transport.py:13-19 | exactly the requested number of bytes from the front of the block stream |
| TransportBody.BodyPrefix | scripts/capture-efficiency-bench/generate_transport.py:15-19 | a smaller body is the beginning of any larger one |
| TransportBody.BodyBytes | scripts/capture-efficiency-bench/generate_transport.py:16 | every byte comes from the block of its own index |

## Left out

- What the browser does on `Fetch.disable` is not in the source: the model takes it that everything paused is let go.  Whether it also forgets the wish to intercept a response still to come is a parameter, and the results hold for both kinds of browser.
- A message handler and what goes on after the `await` that it settles count as one turn, before the next message is handled.
- Switches are always carried out: a failing `Fetch.enable` or `Fetch.disable`, lost debugger connections and command timeouts, in the gate controller and the session witness, are not part of this model, nor is any call after the connection is closed.
- The reading of a single gate (its elapsed time and its own flags), which only copies fields.
- Requests that redirect or restart under a new identity: the browser's identities are taken as unique.
- URL parsing, JSON parsing, UTF-8 decoding, percent decoding, hashing, random ids and clocks are parameters: paths, parsed meanings, decoded ids and times come as inputs.  Lines that do not parse, in the request/reply clients, are not part of this model.
- SessionCreation.FreshTitle: assumes, as do the other lemmas on creation, that a create commits before it returns or never, that a successful list shows every commit, and that the server hands out no empty id; the pauses between attempts are left out.
- Two disposals of one provider context at the same time, and provider graphs with cycles, which would wait for ever.  Providers are numbered so that what a load uses has a smaller number.
- ShellQuoting.QuoteRoundTrip: the shell reads quotes, backslashes, blanks and `&&`; any other unquoted character with a meaning is an error to it, so nothing is claimed about lines that use one.
- EventStream.LinesReassemble: lines end in a line feed only, as in the code; section 9.2.5 of the WHATWG HTML Standard also allows carriage returns.
- StableCapture.CaptureUntil: the deadline is the end of the list of frames, and the error text keeps the whole visible text instead of its last 600 characters.
- ContinuityMonitor: the counters of frames and mutations and the sixty-second expiry, which the samples do not depend on.
- TransportBody.Generate: the digest of the whole body, and the refusal of sizes below one.
- ProcessTree.Measure: the timeout, the reading of `/proc`, and rows that do not parse.
- The rest of the repository: provisioning of worlds, launching of processes, HTTP and WebSocket transport, page inspection, configuration files, argument parsing and declaration files.
