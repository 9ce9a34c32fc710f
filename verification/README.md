# Settlement in the Meadow bridge: a Dafny model

The bridge drives one native agent process on behalf of HTTP clients. It promises that every operation
it admits reaches exactly one truthful and permanent outcome, whatever the interleaving of requests,
worker tasks, deadlines, cancellations and loss of the child. This project models the machinery behind
that promise and proves it. `dafny verify dfyconfig.toml` checks everything.

## How the model is laid out

**The direct service** (`direct_state.py`, `direct_service.py`).
`DirectProtocol.dfy` is the service as a transition system. One event is the code between two suspension
points; any event that is enabled may come next. A worker that a quarantine cancels resumes only through
its `finally`, and one cancelled before its first step never runs. The native client is the environment:
a turn may complete, fail, be cancelled, raise or stay silent, and the generation may be lost at any
moment. `DirectInvariants.dfy` states what every reachable state satisfies, `DirectPatches.dfy`,
`DirectSteps.dfy` and `DirectLoss.dfy` show that each step keeps it, and `DirectTheorems.dfy` draws the
results about whole runs. `DirectLaws.dfy` says of single steps, over records and continuity alone, which of
them settle, stop and dispatch a prompt and which lose the generation; `DirectAdmission.dfy` which requests are
accepted, and that they are so once and within the limits; `DirectReuse.dfy` which sessions may be used again;
and `DirectEvidence.dfy` how the operations end that a loss finds unsettled. `DirectService.dfy` is the service
object: one method per step, each proved to take the object from one state of the transition system to the next,
so every result about runs is a result about the object. `DirectCounterexamples.dfy` holds three concrete runs in
which the code falls short of what its documentation says.

**The native turn** (`native_client.py`). `NativeTurns.dfy` holds the turn object with its handlers for
progress, terminal response, callbacks and effects, the budgets, the identities of tool calls, and the
conversation binding that outlives a turn. `TurnOutcomes.dfy` joins it to the direct service: the terminal of a
turn is the outcome its operation is settled from.

**The transport** (`native_transport.py`). `Framing.dfy` is the byte format (Language Server Protocol 3.17,
"Base Protocol") as pure functions on whole streams. `FramePipes.dfy` holds the loops that read and write
frames through pipes that deliver and accept arbitrary pieces. `TransportProtocol.dfy` is request and
callback correlation (JSON-RPC 2.0, sections 4, 5 and 5.1) with revocation as a transition system, and
`NativeTransport.dfy` the object that follows it.

**Effects.** `ExactEdits.dfy` and `FileBatches.dfy` are the file tools of `workspace_tools.py`, with failing
calls, stop requests and other programs writing at any moment. `OwnedCommands.dfy` is bounded capture and
the loop that waits for a process tree. `Guardian.dfy` is the Linux command guardian over a small kernel of
fork, exit, adoption, reaping and reuse of process numbers.

**Two loops with exact specifications.** `RawEvents.dfy` is the bounded ordered capture;
`TypecheckChange.dfy` the verdict of `scripts/typecheck_change.py`.

Environments (native outcomes, pipe answers, other processes, file system calls) are arguments or scripts
of arbitrary content, so each result holds for all of them.

## What the proofs found

- **A cancel receipt can be stale.** When the grace of a manual cancellation expires in the same turn of
  the event loop in which its target settles, the receipt says `in_doubt` while the target is `cancelled`
  for good (`DirectCounterexamples.ReceiptNotTrue`). That is the only way: a receipt is true exactly when
  its grace did not pass while its target had already settled (`DirectTheorems.CancelReceiptsAreTrue`).
- **`IN_DOUBT` can be published without a native stop.** If the call that quarantines came from outside the
  workers and is itself cancelled while the tasks drain, its `finally` publishes at once
  (`DirectCounterexamples.PublicationWithoutStop`). That is again the exact condition
  (`DirectTheorems.StopPrecedesPublication`).
- **Evidence can be dropped.** An IN_DOUBT prompt is to keep what its turn was observed to do. It keeps nothing when
  its turn ended while its deadline's cancellation was being sent and sending failed
  (`DirectCounterexamples.EvidenceDropped`), or when its turn completed under another binding: its worker lets go of
  the finished collector before it quarantines. In every other case the evidence is there
  (`DirectEvidence.LossOutcome`).
- **A count above the slice offered is believed.** `_send` compares a write count with the rest of the frame
  and not with the 64 KiB it offered. A pipe that reported more would leave a hole in the frame: possible for
  every frame above 64 KiB (`FramePipes.HoleInTheFrame`) and for no other (`FramePipes.SmallFramesAreHonest`).
  A send that ends by itself wrote the frame exactly when no count did that (`FramePipes.WritesAPrefix`).
- **A revoked transport still admits callbacks** until its reader is stopped
  (`TransportProtocol.RevokedTransportAdmitsCallbacks`); the native client refuses their effects.
- **An early response orphans a request.** A response to a request that was reserved and not yet sent takes
  it out of the pending table unresolved, and nothing else does (`TransportProtocol.OrphanedByEarlyResponse`);
  it stays so for good (`TransportProtocol.OrphansStay`), and two steps are enough (`TransportProtocol.OrphanRun`).
- **The guardian's `stop` can raise** (`Guardians.StopRaises`): the 64 reaping rounds of `settled` run out
  exactly as the group becomes empty. Undisturbed, that is exactly when the root and all others have exited and
  64 others are left to reap; nothing is left and nothing is signalled then (`Guardians.Invocation.Stop`).

## Model

| member | source | states |
|---|---|---|
| `DirectState.ContractFor` | src/meadow_bridge/direct_state.py:85-98 | the lookup finds a recorded contract of the invocation, and finds none only when there is none |
| `DirectState.ContractForIsTheContract` | src/meadow_bridge/direct_state.py:78-98 | with the uniqueness that construction checks, the lookup and membership agree in both directions |
| `DirectTheorems.StepKeeps` | src/meadow_bridge/direct_service.py:244-1280 | every step of every request, worker, turn and cleanup keeps the invariant and takes nothing settled back |
| `DirectTheorems.RunKeeps` | src/meadow_bridge/direct_service.py:244-1280 | the same over every run |
| `DirectTheorems.OutcomesArePermanent` | src/meadow_bridge/direct_state.py:114-128 | an operation ID keeps one identity; once terminal, a record shows the same state, result and error for ever, despite the unguarded writes to its state |
| `DirectTheorems.EveryRecordHasAnOwner` | src/meadow_bridge/direct_service.py:1127-1203 | an unsettled record has an undisturbed worker, or is in exactly one of the quarantining call's two lists; none is left when that call has published |
| `DirectTheorems.TurnsAreSerialized` | src/meadow_bridge/direct_service.py:487-525 | at most one native turn is unfinished, no operation starts two, and none starts after continuity is lost |
| `DirectTheorems.UncertaintyFollowsALoss` | src/meadow_bridge/direct_service.py:1205-1237 | a prompt is IN_DOUBT only in a closed generation in which it was unsettled, and keeps evidence |
| `DirectTheorems.UnsettledPromptsEndInDoubt` | src/meadow_bridge/direct_service.py:1257-1280 | a prompt unsettled at the loss ends IN_DOUBT and as nothing else |
| `DirectTheorems.NothingPublishedBeforeCleanup` | src/meadow_bridge/direct_service.py:1145-1199 | between the loss and the end of the quarantining call no record becomes terminal |
| `DirectTheorems.StopPrecedesPublication` | src/meadow_bridge/direct_service.py:1177-1199 | publication happens without a settled native stop exactly when an outside caller was cancelled while its tasks drained |
| `DirectTheorems.HistoryStep` | src/meadow_bridge/direct_service.py:951-980 | which steps close a generation, and which step makes a cancellation's expiry stale |
| `DirectTheorems.CancelReceiptsAreTrue` | src/meadow_bridge/direct_service.py:945-1005 | a completed cancellation names its target's permanent final state if and only if no event of the run was its grace passing while its target had settled |
| `DirectTheorems.ReservationsAreUnsettledPrompts` | src/meadow_bridge/direct_service.py:641-649 | reservations are the admitted prompts not yet released, never negative, at most the queue limit plus one; in a current generation those are the unsettled prompts, each named by its session |
| `DirectTheorems.AdmissionChecksHoldAtSettlement` | src/meadow_bridge/direct_service.py:418-476 | the instruction checks made at admission still hold when the turn ends, so the assertion and the constructor checks of completion cannot fail |
| `DirectTheorems.InstructionsAreSubmittedOnce` | src/meadow_bridge/direct_service.py:628-637 | a session completes at most one initial prompt |
| `DirectTheorems.OutcomesMatchTurns` | src/meadow_bridge/direct_service.py:569-639 | a prompt settled as anything but IN_DOUBT was cancelled before dispatch and never had a turn, or its state, result and error are those its own turn's outcome calls for; completion needs a complete observation of the admitted binding |
| `DirectLaws.StoppedPromptsNeverComplete` | src/meadow_bridge/direct_service.py:613-628 | a prompt that was told to stop never ends COMPLETED, over every run |
| `DirectLaws.StepMoves` | src/meadow_bridge/direct_service.py:487-1102 | every step moves every record along one edge of its life cycle or leaves its state alone |
| `DirectLaws.RunMoves` | src/meadow_bridge/direct_service.py:487-1102 | what that amounts to over every run: from CANCELLING a prompt ends failed, cancelled, timed out or in doubt, and only so |
| `DirectLaws.TurnSeenLaw` | src/meadow_bridge/direct_service.py:505-639 | the end of a turn loses the generation and settles nothing exactly when it leaves the outcome unknown, as a complete turn does that completes although its prompt was told to stop; otherwise it settles the prompt as the outcome calls for, or starts the stop at the deadline; the session is ready again only after a completion, and then has its instructions submitted |
| `DirectLaws.GraceSeenLaw` | src/meadow_bridge/direct_service.py:749-790 | within the grace after a deadline only a cancelled turn settles its prompt, as TIMED_OUT; any other loses the generation |
| `DirectLaws.RetirementLaw` | src/meadow_bridge/direct_service.py:1060-1102 | a settled retirement completes its operation and leaves the session retired and free; any other loses the generation |
| `DirectLaws.SubmissionRecorded` | src/meadow_bridge/direct_service.py:459-476 | a completed prompt makes its invocation the active one under the contract it announced, adds no contract for a delta, and keeps all earlier ones |
| `DirectLaws.LossIsExact` | src/meadow_bridge/direct_service.py:505-1102 | the generation is lost by exactly eight kinds of step, each named by its own condition |
| `DirectLaws.LossLaw` | src/meadow_bridge/direct_service.py:1138-1170 | a loss settles nothing; it gives every unsettled record to the quarantining call, in exactly one of its lists, and makes every session lost that is not retired |
| `DirectLaws.PromptsChangeExactly` | src/meadow_bridge/direct_service.py:487-943 | while continuity holds, exactly which step settles an unsettled prompt, times it out, cancels it before dispatch, tells it to stop or dispatches it |
| `DirectLaws.CancellationTouches` | src/meadow_bridge/direct_service.py:918-941 | an accepted cancellation changes its target only: one not dispatched is cancelled on the spot, a running one is told to stop, a settled one stays |
| `DirectLaws.CancellationAnswers` | src/meadow_bridge/direct_service.py:918-943 | and is itself complete at once, with its target's final state, unless the target runs |
| `DirectEvidence.LossOutcome` | src/meadow_bridge/direct_service.py:1127-1280 | over every run, the state, error and result of every operation that a loss found unsettled: as the losing step decided it or CONTINUITY_LOST, in doubt where cleanup failed; a prompt keeps the observation of its own turn exactly unless its worker had let go of it |
| `DirectEvidence.RunWatches` | src/meadow_bridge/direct_service.py:505-567 | over every run the service keeps the collector of each unsettled prompt that has one, and the outcome of a turn is final |
| `DirectAdmission.PromptsAreAdmittedOnce` | src/meadow_bridge/direct_service.py:336-392 | after any run, the same prompt request finds its own operation without effect, and another request under its ID is refused without effect |
| `DirectAdmission.CancellationsAreAdmittedOnce` | src/meadow_bridge/direct_service.py:900-943 | the same for cancellations |
| `DirectAdmission.RetirementsAreAdmittedOnce` | src/meadow_bridge/direct_service.py:1015-1058 | the same for retirements |
| `DirectAdmission.CreationsAreAdmittedOnce` | src/meadow_bridge/direct_service.py:244-334 | the same for session creations |
| `DirectAdmission.CancellationsAreAtomic` | src/meadow_bridge/direct_state.py:153-195 | a refusal or a found operation changes nothing; a created one is new and the only one added; nothing is accepted after continuity is lost |
| `DirectAdmission.PromptsAreAtomic` | src/meadow_bridge/direct_service.py:336-392 | the same for prompts |
| `DirectAdmission.CreationsAreAtomic` | src/meadow_bridge/direct_service.py:244-334 | the same for session creations |
| `DirectAdmission.RetirementsAreAtomic` | src/meadow_bridge/direct_service.py:1015-1058 | the same for retirements |
| `DirectAdmission.PromptsAccepted` | src/meadow_bridge/direct_service.py:336-457 | exactly which prompts are accepted, over the fields of request, session and limits; an accepted one is queued if and only if another prompt is unsettled, and takes its session |
| `DirectAdmission.CreationsAccepted` | src/meadow_bridge/direct_service.py:244-334 | exactly which creations are accepted, and the session each makes |
| `DirectAdmission.CancellationsAccepted` | src/meadow_bridge/direct_service.py:900-943 | exactly which cancellations are accepted: those of every known prompt, settled or not |
| `DirectAdmission.RetirementsAccepted` | src/meadow_bridge/direct_service.py:1015-1058 | exactly which retirements are accepted: those of a session neither retired nor in use |
| `DirectAdmission.PromptRefusals` | src/meadow_bridge/direct_service.py:187-457 | a refused prompt is refused for a reason that is the case |
| `DirectAdmission.CreationRefusals` | src/meadow_bridge/direct_service.py:187-334 | the same for creations |
| `DirectAdmission.CancellationRefusals` | src/meadow_bridge/direct_service.py:900-943 | the same for cancellations |
| `DirectAdmission.RetirementRefusals` | src/meadow_bridge/direct_service.py:1015-1058 | the same for retirements |
| `DirectAdmission.LimitsHold` | src/meadow_bridge/direct_service.py:407-457 | over every run the ledger and the session table stay within their limits, and every prompt ever admitted was within its own, has the stable digest of its session, and handed over texts of the digests it announced |
| `DirectReuse.SessionsAreReusedWhenCertain` | src/meadow_bridge/direct_service.py:394-405 | a prompt is admitted only into a session whose every earlier prompt is settled and completed or was cancelled before dispatch |
| `DirectReuse.RunStaysClean` | src/meadow_bridge/direct_service.py:556-567 | the invariant behind it, over every run: a usable session has no failed, stopped, timed out or doubtful prompt |
| `DirectTheorems.RetiredSessionsAcceptNothing` | src/meadow_bridge/direct_service.py:394-405 | a retired session accepts no further prompt, and the refusal changes nothing |
| `DirectTheorems.RunningWorkersSeeTheirGeneration` | src/meadow_bridge/direct_service.py:238-242 | a worker that is not cancelled never meets a foreign generation unless it is itself the one quarantining |
| `DirectSteps.LateDrainTouchesNothing` | src/meadow_bridge/direct_service.py:556-567 | the late end of a prompt cancelled before dispatch removes its own worker and changes nothing else, so a successor prompt is untouched |
| `DirectSteps.UndisturbedWorker` | src/meadow_bridge/direct_service.py:478-567 | a worker that is not cancelled and not itself cleaning up proves that the generation is current, and finds its record as its suspension point requires |
| `DirectSteps.RecordSubmissionWellFormed` | src/meadow_bridge/direct_service.py:459-476 | recording a submission keeps contract identities unique and the active one recorded |
| `DirectCounterexamples.ReceiptNotTrue` | src/meadow_bridge/direct_service.py:951-980 | a run of twelve steps ends with a receipt that contradicts its target |
| `DirectCounterexamples.PublicationWithoutStop` | src/meadow_bridge/direct_service.py:1177-1199 | a run ends with an IN_DOUBT prompt and no native stop |
| `DirectCounterexamples.EvidenceDropped` | src/meadow_bridge/direct_service.py:525-547 | a run of nine steps ends with an IN_DOUBT prompt whose turn completed and whose evidence says that nothing was observed |
| `DirectServices.DirectService.AdmitCreate` | src/meadow_bridge/direct_service.py:244-334 | the object follows the protocol, reply included: pins, limits, replay, reuse, allocation failure |
| `DirectServices.DirectService.AdmitPrompt` | src/meadow_bridge/direct_service.py:336-392 | the same for prompts: liveness, limits, lifetime, busy sessions, queue and ledger bounds |
| `DirectServices.DirectService.AdmitCancel` | src/meadow_bridge/direct_service.py:900-943 | the same for cancellations, including the one that settles an undispatched target at once |
| `DirectServices.DirectService.AdmitRetire` | src/meadow_bridge/direct_service.py:1015-1058 | the same for retirement |
| `DirectServices.DirectService.ReleasePromptReservation` | src/meadow_bridge/direct_service.py:641-649 | a slot is released once per operation |
| `DirectServices.DirectService.WorkerEnters` | src/meadow_bridge/direct_service.py:487-504 | a worker waits for a taken lock and behind those who already wait, leaves a settled record, or takes the lock and starts its collector |
| `DirectServices.DirectService.TurnSeen` | src/meadow_bridge/direct_service.py:505-554 | the worker's reactions to every outcome of its turn |
| `DirectServices.DirectService.SettleTerminal` | src/meadow_bridge/direct_service.py:569-639 | settlement of a native terminal follows the protocol: evidence limit, failure, cancellation, mismatch, completion; `DirectLaws.TurnSeenLaw` says what each means |
| `DirectServices.DirectService.DeadlineReached` | src/meadow_bridge/direct_service.py:739-748 | the deadline moves a prompt to cancelling and starts the bounded stop |
| `DirectServices.DirectService.TurnSeenInGrace` | src/meadow_bridge/direct_service.py:749-790 | what the grace after a deadline can end in |
| `DirectServices.DirectService.CancelReturned` | src/meadow_bridge/direct_service.py:953-1005 | a cancellation that could not be sent quarantines the generation |
| `DirectServices.DirectService.TargetSettled` | src/meadow_bridge/direct_service.py:955-980 | the receipt of a cancellation whose target settled |
| `DirectServices.DirectService.CancelGracePassed` | src/meadow_bridge/direct_service.py:959-976 | the receipt of one whose grace passed |
| `DirectServices.DirectService.RetireReturned` | src/meadow_bridge/direct_service.py:1060-1102 | retirement settles, or puts the generation in doubt |
| `DirectServices.DirectService.Quarantine` | src/meadow_bridge/direct_service.py:1138-1170 | the atomic part of losing a generation: sessions lost, records captured, tasks cancelled |
| `DirectServices.DirectService.Publish` | src/meadow_bridge/direct_service.py:1187-1199 | the loops that settle captured and deferred records give each its protocol outcome |
| `DirectServices.DirectService.WorkerUnwinds` | src/meadow_bridge/direct_service.py:556-567 | a cancelled worker passes through its `finally` only |
| `DirectServices.DirectService.Serve` | src/meadow_bridge/direct_service.py:137-1280 | any run of the object is a run of the protocol |
| `NativeTurns.Fitting` | src/meadow_bridge/native_client.py:304-313 | the longest prefix of the evidence offered that fits the budget |
| `NativeTurns.FittingIsLongest` | src/meadow_bridge/native_client.py:304-313 | a prefix fits if and only if it is no longer than that |
| `NativeTurns.FullRecordIsLongest` | src/meadow_bridge/native_client.py:304-313 | a record closed by the budget is that prefix |
| `NativeTurns.NativeTurn.Retain` | src/meadow_bridge/native_client.py:304-313 | evidence is kept exactly while it fits; the first piece that does not closes the record |
| `NativeTurns.NativeTurn.ObserveReply` | src/meadow_bridge/native_client.py:363-372 | a reply is kept exactly while it fits its budget and nothing overflowed; overflow is set by a reply that does not fit and by nothing else, and the first such reply ends the response |
| `NativeTurns.NativeTurn.ObserveReport` | src/meadow_bridge/native_client.py:356-381 | the loops over chunks and tool calls read what the specification reads; the response stays a prefix of the replies, within its budget |
| `NativeTurns.SoundReading` | src/meadow_bridge/native_client.py:356-388 | a report is sound if and only if no chunk of it is malformed and no tool call changes its identity; then its replies are those of all its chunks in order |
| `NativeTurns.FaultyReading` | src/meadow_bridge/native_client.py:356-388 | otherwise its replies are those up to the first chunk at fault, that one included |
| `NativeTurns.SeeToolsAgrees` | src/meadow_bridge/native_client.py:383-388 | tool calls are all entered if and only if none changes its name or scope, neither from before nor among them |
| `NativeTurns.NativeTurn.OnBegin` | src/meadow_bridge/native_client.py:331-340 | a begin is accepted once, binds a first turn, and keeps the conversation but not the turn of a later one |
| `NativeTurns.NativeTurn.OnProgress` | src/meadow_bridge/native_client.py:315-354 | over the fields: progress is accepted if and only if it is correlated, comes before the end, has its identity, and is sound or dropped by an overflow; what was heard is on record in each case, piece by piece; a refusal ends the read loop; callbacks, their phases and inputs stay as they are |
| `NativeTurns.NativeTurn.OnTerminalRpc` | src/meadow_bridge/native_client.py:283-297 | accepted once, only after the end, and only with the bound identity and model |
| `NativeTurns.NativeTurn.OnCallback` | src/meadow_bridge/native_client.py:390-456 | over the fields: a callback is put on record if and only if the turn has begun and is undisturbed, the callback is well formed and bears the conversation and turn the session is bound to, and it is the first of its phase, with the input its call had before; it is stranded exactly by a tool identity it contradicts; a confirmation is answered yes if and only if it decodes, is allowed and its decision was retained; it offers exactly its evidence |
| `NativeTurns.AdmittedGrows` | src/meadow_bridge/native_client.py:416-433 | accepting a callback keeps each call at one confirmation and one invocation, both with one input, and keeps the phases and inputs on record those of the accepted callbacks |
| `NativeTurns.NativeTurn.StartEffect` | src/meadow_bridge/native_client.py:462-466 | an effect starts exactly when no overflow or cancellation is recorded and the transport is open; otherwise its refusal is its receipt, and is offered to the record |
| `NativeTurns.NativeTurn.EffectDone` | src/meadow_bridge/native_client.py:467-483 | an invocation gets one receipt, and its result is offered to the record |
| `NativeTurns.NativeTurn.SignalCancel` | src/meadow_bridge/native_client.py:489-495 | a cancellation is recorded every time and sent at most once in a turn, only for a dispatched and unanswered prompt |
| `NativeTurns.NativeTurn.Finish` | src/meadow_bridge/native_client.py:256-281 | a settled turn had one end, then one response, nothing after, every callback joined, every invocation with its receipt; which terminal it gets follows from the accepted end and the response, in both directions; the observation is complete exactly when the turn settled and everything fitted, and then nothing was dropped |
| `NativeTurns.NativeTurn.Serve` | src/meadow_bridge/native_client.py:315-495 | over any run of a turn each call has at most one accepted confirmation and one accepted invocation with one name and input, all of them under the turn's own conversation and turn, and every effect started has its accepted invocation; histories, phases, inputs and tool identities only grow; nothing starts after overflow or cancellation, no callback is accepted after these, the end or the answer, nothing after a refusal |
| `TurnOutcomes.SettledPromptsTellTheirTurn` | src/meadow_bridge/direct_service.py:569-638 | in every reachable state a COMPLETED operation dropped no evidence, no reply and no receipt, and its turn ended and was answered without error; EVIDENCE_LIMIT means that something did not fit; a failed, cancelled or timed out one says the truth about its turn |
| `NativeTurns.NativeClient.StartTurn` | src/meadow_bridge/native_client.py:218-228 | one active turn at a time, with positive time and byte limits, in a session that is not retired |
| `NativeTurns.NativeClient.RunTurns` | src/meadow_bridge/native_client.py:315-340 | across all turns a session's model never changes, nor its conversation once it has one |
| `NativeTurns.NativeClient.RetireSession` | src/meadow_bridge/native_client.py:511-522 | retirement of an inactive session, and what an unacknowledged one costs |
| `Framing.ParsePrint` | src/meadow_bridge/native_transport.py:263-263 | decimal lengths are read back as printed |
| `Framing.TakeHeader` | src/meadow_bridge/native_transport.py:85-88 | the header ends at its first empty line, within the limit; otherwise the error says whether bytes were missing or too many |
| `Framing.JoinSplit` | src/meadow_bridge/native_transport.py:90-90 | joining the lines with CRLF gives the header back |
| `Framing.LinesAreUnbroken` | src/meadow_bridge/native_transport.py:90-90 | no line holds a CRLF |
| `Framing.SplitJoin` | src/meadow_bridge/native_transport.py:90-90 | and the header can be cut into such lines in one way only |
| `Framing.FieldsAreDistinct` | src/meadow_bridge/native_transport.py:89-95 | a header is accepted if and only if every line has a colon and no two names agree up to case, and each name has its own value |
| `Framing.StripTakesBlanks` | src/meadow_bridge/native_transport.py:95-95 | stripping a value removes blanks only, and only at its ends |
| `Framing.Decode` | src/meadow_bridge/native_transport.py:81-102 | a decoded body is 1 byte to 16 MiB long and is what the frame ends with |
| `Framing.DecodeIsExact` | src/meadow_bridge/native_transport.py:81-102 | bytes decode to a body if and only if an ASCII header block within the limit declares it and it follows; no other bytes are taken |
| `Framing.RefusalsAreExact` | src/meadow_bridge/native_transport.py:81-102 | every other stream is refused for the one reason that applies: no header end, missing bytes, undecodable, malformed or repeated names, or an invalid length |
| `Framing.DecodeEncode` | src/meadow_bridge/native_transport.py:81-102 | round trip of one frame, whatever follows it |
| `Framing.DecodeCutFrame` | src/meadow_bridge/native_transport.py:81-102 | a frame cut anywhere is incomplete, never another frame or a malformed one |
| `Framing.DecodeIsDecidedEarly` | src/meadow_bridge/native_transport.py:81-102 | any verdict but "incomplete" is independent of later bytes |
| `Framing.DecodeAllEncodeAll` | src/meadow_bridge/native_transport.py:330-341 | round trip of every sequence of bodies, also when the stream stops inside a further frame |
| `FramePipes.PipeReader.ReadExactly` | src/meadow_bridge/native_transport.py:54-62 | the next bytes of the stream, however they were cut into chunks, or the way the stream ended |
| `FramePipes.PipeReader.ReadFrame` | src/meadow_bridge/native_transport.py:81-102 | the imperative reader returns what the pure decoder makes of the stream, and consumes that frame only |
| `FramePipes.PipeReader.ReadAll` | src/meadow_bridge/native_transport.py:330-347 | the reader loop returns every body of the stream and why it stopped |
| `FramePipes.HeaderLength` | src/meadow_bridge/native_transport.py:89-98 | the loop over header lines computes the pure result, error for error |
| `FramePipes.ReadWhatWasSent` | src/meadow_bridge/native_transport.py:49-102 | any chunking of sent frames is read as exactly the bodies sent |
| `FramePipes.WritesAPrefix` | src/meadow_bridge/native_transport.py:262-273 | honest counts put a prefix of the frame on the wire, the whole of it exactly when the loop ends by itself; and that equivalence fails exactly for a count above its slice |
| `FramePipes.HoleInTheFrame` | src/meadow_bridge/native_transport.py:265-273 | any frame above 64 KiB can be reported sent with nothing after its first slice on the wire |
| `FramePipes.SmallFramesAreHonest` | src/meadow_bridge/native_transport.py:265-273 | no smaller frame can |
| `FramePipes.FrameWriter.Send` | src/meadow_bridge/native_transport.py:252-279 | a send's outcome, bytes and revocation; the wire stays whole frames and at most one cut frame of a revoked transport |
| `FramePipes.ReadBack` | src/meadow_bridge/native_transport.py:49-279 | what the writer put on the wire is read back as the bodies sent |
| `TransportProtocol.RunKeeps` | src/meadow_bridge/native_transport.py:217-457 | every run keeps numbering, correlation, revocation and callback bounds |
| `TransportProtocol.ResolvedOnce` | src/meadow_bridge/native_transport.py:217-236 | a future is resolved at most once; identities only increase |
| `TransportProtocol.SentRequestsSettle` | src/meadow_bridge/native_transport.py:227-232 | a sent request is unresolved if and only if pending, and then the transport is neither revoked nor stopping |
| `TransportProtocol.WhatResolves` | src/meadow_bridge/native_transport.py:309-328 | a request is resolved only by its own response after it was sent, by the first failure, or by stop |
| `TransportProtocol.ResponsesAreCorrelated` | src/meadow_bridge/native_transport.py:309-328 | the first response to a sent request resolves it as it stands; any other costs the transport its continuity |
| `TransportProtocol.OrphanedByEarlyResponse` | src/meadow_bridge/native_transport.py:312-314 | a step leaves a pending request unresolved and not pending if and only if it is a response that names it before it was sent |
| `TransportProtocol.OrphansStay` | src/meadow_bridge/native_transport.py:312-314 | such a request stays unresolved and unsendable for ever |
| `TransportProtocol.OrphanRun` | src/meadow_bridge/native_transport.py:309-328 | a run of two steps that orphans a request, whatever comes after |
| `TransportProtocol.RevocationIsOneWay` | src/meadow_bridge/native_transport.py:416-427 | after the first failure the pending table stays empty, observers have been told once, and the transport never reopens |
| `TransportProtocol.CallbacksAreAdmittedOnce` | src/meadow_bridge/native_transport.py:299-308 | a callback ID is never admitted twice and live callbacks stay within the limit |
| `TransportProtocol.RevokedTransportAdmitsCallbacks` | src/meadow_bridge/native_transport.py:281-308 | revocation does not change which callbacks are admitted while the reader lives: those with a new ID within the limits |
| `TransportProtocol.NotificationsPass` | src/meadow_bridge/native_transport.py:281-295 | a well-formed notification changes nothing if and only if its handler does not raise |
| `TransportProtocol.CallbacksAreKnown` | src/meadow_bridge/native_transport.py:299-308 | a new callback within the limits is known from then on, and alive unless its handler raised |
| `TransportProtocol.WhatEndsTheReader` | src/meadow_bridge/native_transport.py:281-347 | over the fields of envelopes of all three kinds: exactly which end the reader, and cost an open transport its continuity |
| `TransportProtocol.WhatRevokes` | src/meadow_bridge/native_transport.py:330-427 | a transport is revoked exactly by the first failure, with its reason, and every pending request learns that reason |
| `TransportProtocol.WhatTheOwnerDoes` | src/meadow_bridge/native_transport.py:217-232 | a reserved request waits under a new identity, is dispatched once, and is settled by a stop, after which the transport never opens |
| `NativeTransports.NativeTransport.AdmitEnvelope` | src/meadow_bridge/native_transport.py:281-328 | the object admits and refuses envelopes as the protocol does, whose answers `TransportProtocol.WhatEndsTheReader` states over their fields |
| `NativeTransports.NativeTransport.AbortTransport` | src/meadow_bridge/native_transport.py:416-427 | the loop over the pending table resolves exactly the pending futures |
| `NativeTransports.NativeTransport.Serve` | src/meadow_bridge/native_transport.py:138-457 | any run of the object is a run of the protocol |
| `Guardians.StepKeeps` | src/meadow_bridge/_owned_command_linux_guardian.py:68-74 | every kernel step keeps the tree of the command under the guardian, and strangers out of its number and group |
| `Guardians.ElapsedKeeps` | src/meadow_bridge/_owned_command_linux_guardian.py:98-117 | whatever others do, a child the guardian holds stays held, and a command that is gone stays gone |
| `Guardians.ChainEndsAtGuardian` | src/meadow_bridge/_owned_command_linux_guardian.py:101-105 | the parent chain of every process of the command leads to one that the guardian holds |
| `Guardians.NoChildMeansGone` | src/meadow_bridge/_owned_command_linux_guardian.py:101-105 | the guardian has no child in the group if and only if no process of the command is left |
| `Guardians.HeldChildPinsTheGroup` | src/meadow_bridge/_owned_command_linux_guardian.py:111-121 | while a child is held, everything in the group with that number belongs to the command |
| `Guardians.Invocation.Settled` | src/meadow_bridge/_owned_command_linux_guardian.py:89-109 | true only when nothing of the command is left; false with nothing left only when it has just reaped its 64th child besides the root; undisturbed, exactly then, and true exactly when the root and all others have exited and fewer than 64 others were left to reap |
| `Guardians.Invocation.Stop` | src/meadow_bridge/_owned_command_linux_guardian.py:111-124 | a settled command is never signalled, and of one that is not everything then in the root's group is; it raises only with nothing left, nothing sent and exactly 64 others reaped; undisturbed, it raises if and only if the root and everything else have exited and exactly 64 others are left to reap |
| `Guardians.StopRaises` | src/meadow_bridge/_owned_command_linux_guardian.py:111-124 | a kernel at which it raises |
| `Guardians.Invocation.Signal` | src/meadow_bridge/_owned_command_linux_guardian.py:117-121 | needs a held child, and reaches processes of the command only |
| `Guardians.Invocation.Cleanup` | src/meadow_bridge/_owned_command_linux_guardian.py:126-129 | when it finishes nothing is left, and no signal ever went astray; as long as something is left it signals again within a bounded number of system calls and pauses |
| `ExactEdits.FirstIsLastMeansUnique` | src/meadow_bridge/workspace_tools.py:719-720 | first and last match agree if and only if there is one occurrence, overlaps counted |
| `ExactEdits.EditedOnceIsTheStep` | src/meadow_bridge/workspace_tools.py:719-725 | an edit succeeds with a text if and only if that text replaces the only occurrence |
| `ExactEdits.EditedIsTheChain` | src/meadow_bridge/workspace_tools.py:718-725 | the edits succeed with a text if and only if a chain of such replacements leads to it |
| `ExactEdits.ApplyEdits` | src/meadow_bridge/workspace_tools.py:718-725 | the loop computes that result |
| `FileBatches.CreationsFindNothing` | src/meadow_bridge/workspace_tools.py:773-776 | creation never overwrites: whatever any program did before a link, its path held nothing, and then holds the staged content |
| `FileBatches.EffectsHappened` | src/meadow_bridge/workspace_tools.py:757-792 | every publication happened at a call at which its path went from what it found to what it published |
| `FileBatches.UnwrittenStays` | src/meadow_bridge/workspace_tools.py:757-802 | a path that no other program wrote, that was not staged and not published to, is as it was |
| `FileBatches.Workspace.Publish` | src/meadow_bridge/workspace_tools.py:757-802 | publishes once or not at all, whatever other programs do, and not if a stop was requested when it was looked for; undisturbed, it changes its path only, a creation finds nothing there, a failed cleanup leaves one staged file, and it succeeds if nothing fails and its path holds what is expected |
| `FileBatches.Workspace.Link` | src/meadow_bridge/workspace_tools.py:773-780 | creation fails exactly when, at that moment, something is there or the call fails, and otherwise only adds its path, also when other programs write |
| `FileBatches.Workspace.Exchange` | src/meadow_bridge/workspace_tools.py:781-792 | an edit's exchange fails exactly as the files and calls at its three moments make it, for every schedule, and otherwise replaces the content that was expected when it was compared |
| `FileBatches.Workspace.Prepare` | src/meadow_bridge/workspace_tools.py:686-731 | what the item asks for in the files as they are when it is answered: the text of a new file, or what a chain of unique replacements makes of the text that is there; otherwise the one failure that applies, or that of a failed call or of a file that vanished in between |
| `FileBatches.Workspace.FileBatch` | src/meadow_bridge/workspace_tools.py:678-755 | receipts belong to a prefix of the batch, are exactly what was published, whatever other programs do, and hold the encoded text of a new file, or the encoding of what a chain of unique replacements makes of the text that was there; an item is done only if no stop was requested at any moment at which it looks for one; without outside writers receipts are truthful and replaying them gives the final files; with no failing call and no stop either, the batch ends at the first item that cannot be done, with that item's failure, or at its end |
| `OwnedCommands.Capture.Accept` | src/meadow_bridge/owned_commands.py:117-125 | a capture is the first bytes of its stream, marked truncated exactly when there were more |
| `OwnedCommands.PollAndStop` | src/meadow_bridge/owned_commands.py:242-255 | the first stop is sent exactly when the root had exited, a stop was requested or the deadline had passed, and the deadline counts as the reason if and only if neither of the others held then |
| `OwnedCommands.StoppedForOneReason` | src/meadow_bridge/owned_commands.py:243-253 | that reason is fixed by the first stop |
| `OwnedCommands.StopsAtOnce` | src/meadow_bridge/owned_commands.py:236-257 | in every order of calls that the loop may make, the call after the root's exit, a requested stop or the deadline stops the tree, and from then on it is stopped before each look at it |
| `OwnedCommands.OneWayOut` | src/meadow_bridge/owned_commands.py:257-275 | no log of calls calls for two ways out of the loop |
| `OwnedCommands.NothingIsDue` | src/meadow_bridge/owned_commands.py:257-275 | and once one is called for, no further call is due |
| `OwnedCommands.Observe` | src/meadow_bridge/owned_commands.py:236-275 | every call is the one due after those before it; the loop ends with the result exactly when everything has settled and the root's exit code, asked again after that, is there; it breaks off exactly when a call raised or that code is missing, and reports open pipes exactly past their deadline |
| `OwnedCommands.Cleanup` | src/meadow_bridge/owned_commands.py:276-290 | the tree is stopped and looked at in turn until it is gone; handles are closed once, last, directly after that; it raises exactly when a call did |
| `OwnedCommands.Run` | src/meadow_bridge/owned_commands.py:215-290 | a log of the loop's calls and one of the cleanup's, both in order: the result is returned if the loop's log calls for it, and the run raises only if that log calls for breaking off or shows open pipes past their deadline, or a call of the cleanup raised |
| `RawEvents.AcceptKeeps` | src/meadow_bridge/raw_events.py:118-130 | an accepted record keeps numbering, losslessness and the pending counters within limits |
| `RawEvents.TakeKeeps` | src/meadow_bridge/raw_events.py:135-138 | taking an item moves it into flight; the sentinel comes when everything is written |
| `RawEvents.WriteKeeps` | src/meadow_bridge/raw_events.py:139-141 | a finished write moves its line to the file and out of the counters |
| `RawEvents.RawEventCapture.Start` | src/meadow_bridge/raw_events.py:102-116 | a started capture holds its start line, numbered 0; any failure is reported once |
| `RawEvents.RawEventCapture.Record` | src/meadow_bridge/raw_events.py:118-130 | a record is accepted exactly when the capture is open and both limits allow it; a refusal by limits fails the capture |
| `RawEvents.RawEventCapture.WriterTakes` | src/meadow_bridge/raw_events.py:132-138 | the writer takes the oldest item, and leaves its loop at the sentinel with everything written |
| `RawEvents.RawEventCapture.WriteReturns` | src/meadow_bridge/raw_events.py:139-143 | the file grows by the line in flight, or the capture fails |
| `RawEvents.RawEventCapture.WriterExits` | src/meadow_bridge/raw_events.py:142-153 | what is dropped on exit is dropped by a failed capture only, and a failed close fails it |
| `RawEvents.RawEventCapture.BeginClose` | src/meadow_bridge/raw_events.py:155-164 | the first close of a capture that still records queues the end line, or fails exactly when that exceeds a limit; every first close queues the sentinel; nothing else changes |
| `RawEvents.RawEventCapture.FinishClose` | src/meadow_bridge/raw_events.py:155-174 | a normal close means start line, every accepted record in order, end line |
| `RawEvents.CaptureAll` | src/meadow_bridge/raw_events.py:102-174 | over any interleaving of a whole capture, a normal close means a file of the start line, exactly the payloads recorded, in order and numbered without a gap, and the end line |
| `TypecheckChange.BlockingDiagnostics` | scripts/typecheck_change.py:943-968 | the two loops compute the report |
| `TypecheckChange.NewOnesAreTheSurplus` | scripts/typecheck_change.py:949-957 | of each fingerprint, exactly the surplus over the base is new |
| `TypecheckChange.ReportedAtMostOnce` | scripts/typecheck_change.py:949-968 | no current diagnostic is reported twice |
| `TypecheckChange.PassesExactlyWhenClean` | scripts/typecheck_change.py:943-968 | nothing is reported if and only if no fingerprint became more frequent and no diagnostic lies in a changed region |
| `TypecheckChange.SmallestEnclosing` | scripts/typecheck_change.py:432-444 | the narrowest enclosing declaration, the first of equals, or none when none encloses |
| `TypecheckChange.ExpandCurrentLines` | scripts/typecheck_change.py:447-460 | exactly the regions of the changed lines |
| `TypecheckChange.LinesLieInTheirRegions` | scripts/typecheck_change.py:447-460 | a changed line lies in its region, which is a declaration or the line and no wider than any enclosing declaration |
| `TypecheckChange.DeletionRegions` | scripts/typecheck_change.py:463-492 | exactly the current places of touched declarations whose identity has as many declarations as before |

## Left out

- Progress of the composed service: client calls are taken to respond to cancellation, and only safety is claimed. `WorkspaceTools._settle` swallows cancellation (src/meadow_bridge/workspace_tools.py:581-588), so a worker could wait for a shutdown that waits for the worker.
- The order among the workers that wait for the prompt lock: any of them may take it when it is free. A newcomer waits behind them.
- Sharing of record and session objects by reference: they are values in maps, updated by operation and session ID.
- Contents of results and errors: JSON bodies, prompt rendering, digests and event lists are tags; digests are injective, and so stand for what they are digests of.
- `DirectTheorems.RetiredSessionsAcceptNothing`: does not say that a retired session stays RETIRED, because a worker that drains late can set it to LOST after the generation is lost.
- `NativeTurns.NativeTurn.Finish`: requires a begin of first turns and of turns with callbacks only, because a continuation turn's end does not ask for one (src/meadow_bridge/native_client.py:341-349).
- `NativeTurns.NativeTurn.ObserveReport`: a chunk is what can be read from it before it turns out malformed; the status of a tool call, the list of recorded permission decisions and the order of the effect lock are not modelled.
- Evidence of a collector that is itself cancelled inside `stop` (src/meadow_bridge/native_client.py:271-278): the code does not keep it, and nothing is claimed.
- Interpretation of a frame's body as JSON: bodies are bytes, envelopes are already parsed.
- `FramePipes.FrameWriter.Send`: claims whole frames only as long as no send was left in the middle of a frame by a cancellation or an invalid count. Such a send releases the write lock without revoking the transport; nothing is claimed about what its callers, or senders waiting for the lock, do next.
- `TransportProtocol.RevocationIsOneWay`: takes closure observers not to raise.
- `FileBatches.Workspace.Exchange`: under outside writers says that the content was the expected one when it was compared, and not when it is replaced, because the code does the two in separate calls.
- `FileBatches.Workspace.OsLink`: takes `os.link` to refuse an existing path in one step; no other program is taken to touch a staged file.
- Admission in `OwnedCommands.execute`, `cancel` and `close` and in `WorkspaceTools.execute` and `cancel`: one active call and a flag, left out as easy.
- Processes that leave the command's process group, and `prctl` and `setsid` failures of the guardian.
- `RawEvents.RawEventCapture.Record`: is for a started capture, which the transport awaits before there is a child to observe; serialization is reduced to a record's number, kind and length.
- Parsing of sources into declarations, checker output and the collection of changed lines in `scripts/typecheck_change.py`.
- HTTP routing and validation, authentication, configuration, discovery and version probing, logging, metadata files, the start handshake and the catalog checks.
- The Windows and Darwin process adapters and the parent end of the Linux one: the process is an environment with read, poll, stop, tree-stopped and close.
