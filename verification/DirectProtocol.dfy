/** `direct_service.py` as a transition system: one event per stretch of code between two
    suspension points, over every interleaving of requests, workers, native turns,
    deadlines and losses. `DirectService.dfy` holds the service itself. */
module DirectProtocol {
  import opened Basics
  import opened DirectState

  datatype Limits = Limits(maxSessions: nat, maxOperations: nat, maxQueuedPrompts: nat,
                           maxPromptBytes: nat, maxExecutionTimeout: real)

  datatype Session = Session(stableDigest: Digest, state: SessionState,
                             active: Option<OperationId>, instructions: InstructionState)

  // ---------------------------------------------------------------- requests and replies

  datatype CreateRequest = CreateRequest(pinned: bool, op: OperationId, digest: Digest, session: SessionId,
                                         sameWorkspace: bool, modelAdvertised: bool, stableDigest: Digest)

  /** The layers of a prompt; texts are represented by the digest of their bytes. */
  datatype Phase = Initial(stableText: Digest, contractText: Digest)
                 | Invocation(contractText: Digest) | Correction | Continuation
  {
    predicate Delta() { Correction? || Continuation? }
  }

  datatype PromptRequest = PromptRequest(pinned: bool, op: OperationId, digest: Digest, session: SessionId,
                                         invocation: InvocationId, phase: Phase, stableDigest: Digest,
                                         contractDigest: Digest, textBytes: nat, timeout: real)

  datatype CancelCall = CancelCall(pinned: bool, op: OperationId, digest: Digest, target: OperationId)

  datatype RetireCall = RetireCall(pinned: bool, op: OperationId, digest: Digest, session: SessionId)

  datatype Refusal = GenerationMismatch | WorkspaceMismatch | Busy | Conflict | NotFound | LimitExceeded

  datatype Reply = Operation(op: OperationId, created: bool) | Refused(reason: Refusal)

  // ---------------------------------------------------------------- tasks

  /** Where a worker coroutine is suspended. */
  datatype Point =
    | Scheduled             // created, first step not taken
    | AwaitLock             // waiting for `prompt_lock`
    | AwaitTurn             // holds the lock, waiting for the turn or the deadline
    | SendDeadlineCancel    // holds the lock, sending the deadline cancellation
    | DeadlineGrace         // holds the lock, waiting for the turn or the grace
    | SendCancel            // manual cancellation being sent
    | AwaitTarget           // waiting for the target's `done` or the grace
    | AwaitRetire           // waiting for the native retirement
    | Settling              // inside its own `_quarantine_uncertain`

  /** `cancelled`: a CancelledError is delivered at the next resumption. */
  datatype Worker = Worker(at: Point, cancelled: bool)

  datatype TurnOutcome =
    | TurnCompleted(observation: Observation, bindingMatches: bool)
    | TurnCancelled(observation: Observation)
    | TurnFailed(observation: Observation)
    | Unsettled(observation: Observation)
    | RaisedTimeout
    | RaisedOther
    | TaskCancelled
  {
    predicate Terminal() { TurnCompleted? || TurnCancelled? || TurnFailed? }
  }

  datatype TurnPhase = Created | Running | Done(outcome: TurnOutcome)

  /** The collector task that owns one `run_turn` call. */
  datatype Turn = Turn(phase: TurnPhase, cancelled: bool)

  /** A deferred settlement; `NoResult` asks for the evidence retained at the loss. */
  datatype Settlement = Settlement(state: OperationState, result: Result, error: ErrorCode)

  datatype Owner = External | ByWorker(op: OperationId)

  /** Continuity of the generation. `doomed` and `deferred` are the records the quarantining
      call owns, `held` the collectors whose evidence it keeps. */
  datatype Continuity =
    | Current
    | Draining(owner: Owner, doomed: set<OperationId>, deferred: map<OperationId, Settlement>,
               held: set<OperationId>)
    | Stopping(owner: Owner, doomed: set<OperationId>, deferred: map<OperationId, Settlement>,
               held: set<OperationId>)
    | Closed(stopSettled: bool, cleanupFailed: bool)

  /** `started`, `unsettledAtLoss` and `staleExpiries` only record history: the turns begun,
      in order; the prompts not settled when continuity was lost; and the cancel operations
      whose grace expired although their target had settled. */
  datatype State = State(
    limits: Limits,
    records: Ledger,
    sessions: map<SessionId, Session>,
    requests: map<OperationId, PromptRequest>,
    workers: map<OperationId, Worker>,
    turns: map<OperationId, Turn>,
    tracked: set<OperationId>,
    lock: Option<OperationId>,
    reservations: int,
    released: set<OperationId>,
    continuity: Continuity,
    started: seq<OperationId>,
    unsettledAtLoss: set<OperationId>,
    staleExpiries: set<OperationId>)

  function Init(limits: Limits): State {
    State(limits, map[], map[], map[], map[], map[], {}, None, 0, {}, Current, [], {}, {})
  }

  predicate SameHistory(s: State, s': State) {
    && s'.continuity == s.continuity
    && s'.unsettledAtLoss == s.unsettledAtLoss
    && s'.staleExpiries == s.staleExpiries
  }

  // ---------------------------------------------------------------- admission

  function AdmitCreate(s: State, r: CreateRequest, alive: bool, allocates: bool): (reply: (State, Reply))
    ensures SameHistory(s, reply.0)
  {
    var entry := NewRecord(r.digest, CreateSession, r.session, None, None);
    if !r.pinned || !s.continuity.Current? || !alive then (s, Refused(GenerationMismatch))
    else if !r.sameWorkspace then (s, Refused(WorkspaceMismatch))
    else if !r.modelAdvertised then (s, Refused(Conflict))
    else if r.op !in s.records && r.session in s.sessions then (s, Refused(Conflict))
    else if r.op !in s.records && |s.sessions| >= s.limits.maxSessions then (s, Refused(LimitExceeded))
    else match Classify(s.records, s.limits.maxOperations, r.op, entry)
      case Reused => (s, Refused(Conflict))
      case Exhausted => (s, Refused(LimitExceeded))
      case Replayed => (s, Operation(r.op, false))
      case Admitted =>
        var (settled, use) :=
          if allocates then (entry.SetTerminal(Completed, SessionAllocated, NoError), Ready)
          else (entry.SetTerminal(Failed, NoResult, AllocationFailed), NonReusable);
        (s.(records := s.records[r.op := settled],
            sessions := s.sessions[r.session := Session(r.stableDigest, use, None, Pending)]),
         Operation(r.op, true))
  }

  /** `_validate_prompt_lifetime`, except for the digest of the session's instructions. */
  predicate PhaseAllowed(instructions: InstructionState, r: PromptRequest) {
    match r.phase
    case Initial(_, _) => instructions.Pending?
    case Invocation(_) =>
      instructions.Submitted? && ContractFor(instructions.contracts, r.invocation).None?
    case _ =>
      && instructions.Submitted?
      && r.invocation == instructions.active
      && ContractFor(instructions.contracts, r.invocation) == Some(r.contractDigest)
  }

  predicate LifetimeValid(session: Session, r: PromptRequest) {
    && r.stableDigest == session.stableDigest
    && PhaseAllowed(session.instructions, r)
    && (r.phase.Initial? ==> r.phase.stableText == session.stableDigest)
    && (!r.phase.Delta() ==> r.phase.contractText == r.contractDigest)
  }

  function AdmitPrompt(s: State, r: PromptRequest, alive: bool): (reply: (State, Reply))
    ensures SameHistory(s, reply.0)
  {
    var entry := NewRecord(r.digest, Prompt, r.session, Some(r.invocation), None);
    if !r.pinned || !s.continuity.Current? || !alive then (s, Refused(GenerationMismatch))
    else if r.timeout > s.limits.maxExecutionTimeout || r.textBytes > s.limits.maxPromptBytes then
      (s, Refused(LimitExceeded))
    else if r.op in s.records then
      (s, if s.records[r.op].SameIdentity(entry) then Operation(r.op, false) else Refused(Conflict))
    else if r.session !in s.sessions then (s, Refused(NotFound))
    else if s.sessions[r.session].active.Some? || s.sessions[r.session].state.Busy? then (s, Refused(Refusal.Busy))
    else if !s.sessions[r.session].state.Ready? then (s, Refused(Conflict))
    else if !LifetimeValid(s.sessions[r.session], r) then (s, Refused(Conflict))
    else if s.reservations > 0 && s.reservations - 1 >= s.limits.maxQueuedPrompts then
      (s, Refused(LimitExceeded))
    else if |s.records| >= s.limits.maxOperations then (s, Refused(LimitExceeded))
    else
      (s.(records := s.records[r.op := if s.reservations > 0 then entry.(state := Queued) else entry],
          requests := s.requests[r.op := r],
          sessions := s.sessions[r.session := s.sessions[r.session].(active := Some(r.op), state := SessionState.Busy)],
          workers := s.workers[r.op := Worker(Scheduled, false)],
          reservations := s.reservations + 1),
       Operation(r.op, true))
  }

  function CancelBeforeDispatch(s: State, target: OperationId): (s': State)
    requires target in s.records && s.records[target].session in s.sessions
    ensures SameHistory(s, s')
  {
    var t := s.records[target];
    Release(s.(
      records := s.records[target := t.SetTerminal(Cancelled, CancelledPreDispatch, NoError)],
      sessions := s.sessions[t.session := s.sessions[t.session].(active := None, state := Ready)]), target)
  }

  /** What a cancellation request does to its target: a prompt not yet dispatched is
      cancelled on the spot and gives its reservation back, a running one is marked. */
  function TouchTarget(s: State, target: OperationId): (s': State)
    requires target in s.records
    ensures target in s'.records
    ensures SameHistory(s, s')
  {
    var t := s.records[target];
    if (t.state.Accepted? || t.state.Queued?) && t.session in s.sessions then CancelBeforeDispatch(s, target)
    else if t.state.Terminal() then s
    else s.(records := s.records[target := t.(state := Cancelling)])
  }

  /** A settled target answers the request at once; otherwise a worker is scheduled. */
  function AddCancel(s: State, op: OperationId, entry: Record, target: OperationId): (s': State)
    requires target in s.records
    ensures SameHistory(s, s')
  {
    var state := s.records[target].state;
    if state.Terminal() then
      s.(records := s.records[op := entry.SetTerminal(Completed, CancelReceipt(state, false), NoError)])
    else
      s.(records := s.records[op := entry], workers := s.workers[op := Worker(Scheduled, false)])
  }

  function AdmitCancel(s: State, r: CancelCall, alive: bool): (reply: (State, Reply))
    ensures SameHistory(s, reply.0)
  {
    if !r.pinned || !s.continuity.Current? || !alive then (s, Refused(GenerationMismatch))
    else if r.target !in s.records then (s, Refused(NotFound))
    else if !s.records[r.target].kind.Prompt? then (s, Refused(Conflict))
    else
      var target := s.records[r.target];
      var entry := NewRecord(r.digest, CancelRequest, target.session, None, Some(r.target));
      match Classify(s.records, s.limits.maxOperations, r.op, entry)
      case Reused => (s, Refused(Conflict))
      case Exhausted => (s, Refused(LimitExceeded))
      case Replayed => (s, Operation(r.op, false))
      case Admitted =>
        (AddCancel(TouchTarget(s, r.target), r.op, entry, r.target), Operation(r.op, true))
  }

  function AdmitRetire(s: State, r: RetireCall, alive: bool): (reply: (State, Reply))
    ensures SameHistory(s, reply.0)
  {
    var entry := NewRecord(r.digest, RetireSession, r.session, None, None);
    if !r.pinned || !s.continuity.Current? || !alive then (s, Refused(GenerationMismatch))
    else if r.op in s.records then
      (s, if s.records[r.op].SameIdentity(entry) then Operation(r.op, false) else Refused(Conflict))
    else if r.session !in s.sessions then (s, Refused(NotFound))
    else if s.sessions[r.session].state.Retired? then (s, Refused(Conflict))
    else if s.sessions[r.session].active.Some? then (s, Refused(Conflict))
    else if |s.records| >= s.limits.maxOperations then (s, Refused(LimitExceeded))
    else
      (s.(records := s.records[r.op := entry],
          sessions := s.sessions[r.session := s.sessions[r.session].(active := Some(r.op), state := Retiring)],
          workers := s.workers[r.op := Worker(Scheduled, false)]),
       Operation(r.op, true))
  }

  // ---------------------------------------------------------------- shared pieces of workers

  /** `_release_prompt_reservation`. */
  function Release(s: State, op: OperationId): (s': State)
    ensures SameHistory(s, s')
  {
    if op in s.released then s
    else s.(released := s.released + {op}, reservations := s.reservations - 1)
  }

  function ClearActive(session: Session, op: OperationId): Session {
    if session.active == Some(op) then session.(active := None) else session
  }

  /** The `finally` of `_execute_prompt` and the end of its task. */
  function FinishPrompt(s: State, op: OperationId, dispatched: bool): (s': State)
    requires op in s.records && op in s.requests && s.requests[op].session in s.sessions
    ensures SameHistory(s, s')
  {
    var sid := s.requests[op].session;
    var cleared := ClearActive(s.sessions[sid], op);
    var outcome := s.records[op].state;
    var session :=
      if !s.continuity.Current? then cleared.(state := SessionState.Lost)
      else if dispatched && (outcome.Cancelled? || outcome.TimedOut? || outcome.InDoubt?) then
        cleared.(state := NonReusable)
      else cleared;
    Release(s.(sessions := s.sessions[sid := session],
               workers := s.workers - {op},
               lock := if s.lock == Some(op) then None else s.lock), op)
  }

  /** The `finally` of `_execute_retire` and the end of its task. */
  function FinishRetire(s: State, op: OperationId): (s': State)
    requires op in s.records && s.records[op].session in s.sessions
    ensures SameHistory(s, s')
  {
    var sid := s.records[op].session;
    s.(sessions := s.sessions[sid := ClearActive(s.sessions[sid], op)], workers := s.workers - {op})
  }

  function Unfinished(records: Ledger): set<OperationId> {
    set op | op in records && !records[op].state.Terminal()
  }

  /** Every session is lost but the retired ones. */
  function LostSessions(sessions: map<SessionId, Session>): map<SessionId, Session> {
    map sid | sid in sessions ::
      if sessions[sid].state.Retired? then sessions[sid] else sessions[sid].(state := SessionState.Lost)
  }

  /** Every worker is cancelled but the caller, who goes on inside the loss. */
  function CancelledWorkers(workers: map<OperationId, Worker>, owner: Owner): map<OperationId, Worker> {
    map op | op in workers ::
      if owner == ByWorker(op) then Worker(Settling, false) else workers[op].(cancelled := true)
  }

  function CancelledTurns(turns: map<OperationId, Turn>, tracked: set<OperationId>): map<OperationId, Turn> {
    map op | op in turns :: if op in tracked then turns[op].(cancelled := true) else turns[op]
  }

  /** The synchronous part of `mark_generation_lost`: admission is revoked, every other task
      is cancelled and the unsettled records change owner, all in one step. */
  function Quarantine(s: State, owner: Owner, deferred: map<OperationId, Settlement>): (s': State)
    ensures s'.continuity.Draining? && s'.staleExpiries == s.staleExpiries
  {
    var unfinished := Unfinished(s.records);
    s.(
      sessions := LostSessions(s.sessions),
      workers := CancelledWorkers(s.workers, owner),
      turns := CancelledTurns(s.turns, s.tracked),
      tracked := {},
      continuity := Draining(owner, unfinished - deferred.Keys, deferred, s.tracked),
      unsettledAtLoss := set op | op in unfinished && s.records[op].kind.Prompt?)
  }

  /** `collector_tasks.pop` of a collector that is done. */
  function PopDone(s: State, op: OperationId): (s': State)
    ensures SameHistory(s, s')
  {
    if op in s.turns && s.turns[op].phase.Done? then s.(tracked := s.tracked - {op}) else s
  }

  /** Leaving `async with prompt_lock` by an exception and quarantining: one step. */
  function AbandonPrompt(s: State, op: OperationId, result: Result, error: ErrorCode): (s': State)
    ensures s'.continuity.Draining? && s'.staleExpiries == s.staleExpiries
  {
    Quarantine(PopDone(s, op).(lock := None), ByWorker(op), map[op := Settlement(InDoubt, result, error)])
  }

  // ---------------------------------------------------------------- prompt workers

  predicate PromptAt(s: State, op: OperationId, at: Point) {
    && op in s.workers && s.workers[op] == Worker(at, false)
    && op in s.requests && op in s.records && s.requests[op].session in s.sessions
  }

  predicate PromptWithTurn(s: State, op: OperationId, at: Point) {
    PromptAt(s, op, at) && op in s.turns && s.turns[op].phase.Done? && !s.turns[op].phase.outcome.TaskCancelled?
  }

  /** A lock that is taken is waited for; and a newcomer waits behind those who already wait, even while
      the lock is free and the first of them has not resumed yet. */
  predicate MustWait(s: State, op: OperationId) {
    || s.lock.Some?
    || (op in s.workers && s.workers[op].at.Scheduled?
        && exists o | o in s.workers :: o != op && s.workers[o] == Worker(AwaitLock, false))
  }

  /** A worker that cannot have the lock queues; one that enters either sees its record
      cancelled before dispatch and leaves, or starts the turn. */
  function EnterPrompt(s: State, op: OperationId): (s': State)
    requires PromptAt(s, op, Scheduled) || PromptAt(s, op, AwaitLock)
    ensures SameHistory(s, s')
  {
    if MustWait(s, op) then s.(workers := s.workers[op := Worker(AwaitLock, false)])
    else if s.records[op].state.Terminal() then FinishPrompt(s, op, false)
    else
      s.(records := s.records[op := s.records[op].(state := OperationState.Running)],
         lock := Some(op),
         workers := s.workers[op := Worker(AwaitTurn, false)],
         turns := s.turns[op := Turn(Created, false)],
         tracked := s.tracked + {op})
  }

  /** `_record_instruction_submission`. */
  function RecordSubmission(instructions: InstructionState, r: PromptRequest): InstructionState {
    match r.phase
    case Initial(_, _) => Submitted(r.invocation, [(r.invocation, r.contractDigest)])
    case Invocation(_) =>
      if instructions.Pending? then instructions
      else Submitted(r.invocation, instructions.contracts + [(r.invocation, r.contractDigest)])
    case _ => instructions
  }

  /** A terminal outcome published while continuity holds, then the end of the worker. */
  function Settle(s: State, op: OperationId, outcome: OperationState, result: Result, error: ErrorCode,
                  use: SessionState, instructions: InstructionState): (s': State)
    requires op in s.records && op in s.requests && s.requests[op].session in s.sessions
    requires outcome.Terminal()
    ensures SameHistory(s, s')
  {
    var sid := s.requests[op].session;
    var session := s.sessions[sid].(active := None, state := use, instructions := instructions);
    FinishPrompt(PopDone(s, op).(
                   records := s.records[op := s.records[op].SetTerminal(outcome, result, error)],
                   sessions := s.sessions[sid := session]), op, true)
  }

  /** `_settle_terminal`, with the handlers of `_execute_prompt` around it. */
  function SettleTerminal(s: State, op: OperationId, outcome: TurnOutcome): (s': State)
    requires op in s.records && op in s.requests && s.requests[op].session in s.sessions
    requires outcome.Terminal()
    ensures (SameHistory(s, s') || s'.continuity.Draining?) && s'.staleExpiries == s.staleExpiries
  {
    var sid := s.requests[op].session;
    var o := outcome.observation;
    var instructions := s.sessions[sid].instructions;
    if !o.complete then Settle(s, op, Failed, RetainedEvidence(o), EvidenceLimit, NonReusable, instructions)
    else match outcome
      case TurnFailed(_) => Settle(s, op, Failed, RetainedEvidence(o), NativeTurnFailed, NonReusable, instructions)
      case TurnCancelled(_) => Settle(s, op, Cancelled, RetainedEvidence(o), NoError, NonReusable, instructions)
      case TurnCompleted(_, matches) =>
        var inactive := s.(sessions := s.sessions[sid := s.sessions[sid].(active := None)]);
        if s.records[op].state.Cancelling? then
          Quarantine(PopDone(inactive, op), ByWorker(op),
                     map[op := Settlement(InDoubt, RetainedEvidence(o), CancellationStopMismatch)])
        else if !matches then AbandonPrompt(inactive, op, NoResult, PromptInDoubt)
        else Settle(s, op, Completed, PromptResult(o), NoError, Ready, RecordSubmission(instructions, s.requests[op]))
  }

  function ReachDeadline(s: State, op: OperationId): (s': State)
    requires op in s.records
    ensures SameHistory(s, s')
  {
    s.(records := s.records[op := s.records[op].(state := Cancelling)],
       workers := s.workers[op := Worker(SendDeadlineCancel, false)])
  }

  /** The turn of an undisturbed worker is over. */
  function ResumeTurn(s: State, op: OperationId): (s': State)
    requires PromptWithTurn(s, op, AwaitTurn)
    ensures (SameHistory(s, s') || s'.continuity.Draining?) && s'.staleExpiries == s.staleExpiries
  {
    var outcome := s.turns[op].phase.outcome;
    if outcome.RaisedTimeout? then ReachDeadline(s, op)
    else if outcome.RaisedOther? then AbandonPrompt(s, op, NoResult, PromptInDoubt)
    else if outcome.Unsettled? then AbandonPrompt(s, op, RetainedEvidence(outcome.observation), PromptInDoubt)
    else SettleTerminal(s, op, outcome)
  }

  function DeadlineCancelSent(s: State, op: OperationId, sent: bool): (s': State)
    requires PromptAt(s, op, SendDeadlineCancel)
    ensures (SameHistory(s, s') || s'.continuity.Draining?) && s'.staleExpiries == s.staleExpiries
  {
    if sent then s.(workers := s.workers[op := Worker(DeadlineGrace, false)])
    else AbandonPrompt(s, op, NoResult, PromptInDoubt)
  }

  /** The grace is over with no turn outcome; the lock stays held. */
  function GraceExpired(s: State, op: OperationId): (s': State)
    requires PromptAt(s, op, DeadlineGrace)
    ensures s'.continuity.Draining? && s'.staleExpiries == s.staleExpiries
  {
    Quarantine(s, ByWorker(op), map[op := Settlement(InDoubt, NoResult, DeadlineSettlementUnknown)])
  }

  /** The turn ended within the grace: only a cancellation settles the deadline. */
  function ResumeGrace(s: State, op: OperationId): (s': State)
    requires PromptWithTurn(s, op, DeadlineGrace)
    ensures (SameHistory(s, s') || s'.continuity.Draining?) && s'.staleExpiries == s.staleExpiries
  {
    var outcome := s.turns[op].phase.outcome;
    if outcome.RaisedTimeout? then GraceExpired(s, op)
    else if outcome.RaisedOther? then AbandonPrompt(s, op, NoResult, PromptInDoubt)
    else if outcome.Unsettled? then AbandonPrompt(s, op, RetainedEvidence(outcome.observation), PromptInDoubt)
    else if outcome.TurnCancelled? then
      Settle(s, op, TimedOut, RetainedEvidence(outcome.observation), ExecutionDeadline, NonReusable,
             s.sessions[s.requests[op].session].instructions)
    else
      Quarantine(s, ByWorker(op),
                 map[op := Settlement(InDoubt, RetainedEvidence(outcome.observation), DeadlineStopMismatch)])
  }

  // ---------------------------------------------------------------- cancel and retire workers

  predicate ControlAt(s: State, op: OperationId, kind: OperationKind, at: Point) {
    && op in s.workers && s.workers[op] == Worker(at, false)
    && op in s.records && s.records[op].kind == kind && s.records[op].session in s.sessions
    && (kind.CancelRequest? ==> s.records[op].target.Some? && s.records[op].target.value in s.records)
  }

  function StartControl(s: State, op: OperationId, at: Point): (s': State)
    requires op in s.records
    ensures SameHistory(s, s')
  {
    s.(records := s.records[op := s.records[op].(state := OperationState.Running)],
       workers := s.workers[op := Worker(at, false)])
  }

  function MarkNonReusable(s: State, sid: SessionId): (s': State)
    requires sid in s.sessions
    ensures SameHistory(s, s')
  {
    s.(sessions := s.sessions[sid := s.sessions[sid].(state := NonReusable)])
  }

  function ManualCancelSent(s: State, op: OperationId, sent: bool): (s': State)
    requires ControlAt(s, op, CancelRequest, SendCancel)
    ensures (SameHistory(s, s') || s'.continuity.Draining?) && s'.staleExpiries == s.staleExpiries
  {
    if sent then s.(workers := s.workers[op := Worker(AwaitTarget, false)])
    else Quarantine(MarkNonReusable(s, s.records[op].session), ByWorker(op), map[
           s.records[op].target.value := Settlement(InDoubt, NoResult, CancelTransportFailed),
           op := Settlement(Failed, NoResult, CancelFailed)])
  }

  function TargetDone(s: State, op: OperationId): (s': State)
    requires ControlAt(s, op, CancelRequest, AwaitTarget)
    requires s.records[s.records[op].target.value].state.Terminal()
    ensures SameHistory(s, s')
  {
    var target := s.records[s.records[op].target.value];
    s.(records := s.records[op := s.records[op].SetTerminal(Completed, CancelReceipt(target.state, true), NoError)],
       workers := s.workers - {op})
  }

  /** The grace of a manual cancellation expired. Nothing here looks at the target again. */
  function TargetExpired(s: State, op: OperationId): State
    requires ControlAt(s, op, CancelRequest, AwaitTarget)
  {
    var target := s.records[op].target.value;
    Quarantine(MarkNonReusable(s, s.records[op].session), ByWorker(op), map[
      target := Settlement(InDoubt, NoResult, CancellationSettlementUnknown),
      op := Settlement(Completed, CancelReceipt(InDoubt, true), NoError)])
    .(staleExpiries := if s.records[target].state.Terminal() then s.staleExpiries + {op} else s.staleExpiries)
  }

  function RetireFinished(s: State, op: OperationId, settled: bool, destroyed: bool): (s': State)
    requires ControlAt(s, op, RetireSession, AwaitRetire)
    ensures (SameHistory(s, s') || s'.continuity.Draining?) && s'.staleExpiries == s.staleExpiries
  {
    var sid := s.records[op].session;
    if settled then
      FinishRetire(s.(
        records := s.records[op := s.records[op].SetTerminal(Completed, SessionRetired(destroyed), NoError)],
        sessions := s.sessions[sid := s.sessions[sid].(state := Retired)]), op)
    else Quarantine(s, ByWorker(op), map[op := Settlement(InDoubt, NoResult, RetirementInDoubt)])
  }

  // ---------------------------------------------------------------- loss and cleanup

  /** A cancelled worker resumes through its `finally` only; one that never started does nothing. */
  function Unwind(s: State, op: OperationId): (s': State)
    requires op in s.workers && op in s.records && s.records[op].session in s.sessions
    requires op in s.requests ==> s.requests[op].session in s.sessions
    ensures SameHistory(s, s')
  {
    if s.workers[op].at.Scheduled? then s.(workers := s.workers - {op})
    else match s.records[op].kind
      case Prompt => if op in s.requests then FinishPrompt(PopDone(s, op), op, !s.workers[op].at.AwaitLock?) else s
      case RetireSession => FinishRetire(s, op)
      case _ => s.(workers := s.workers - {op})
  }

  /** `_lost_prompt_evidence`: what the held collector finally observed. */
  function LostEvidence(s: State, op: OperationId, held: set<OperationId>): Result
    requires op in s.records
  {
    if !s.records[op].kind.Prompt? then NoResult
    else if op in held && op in s.turns && s.turns[op].phase.Done?
         && (s.turns[op].phase.outcome.Terminal() || s.turns[op].phase.outcome.Unsettled?) then
      RetainedEvidence(s.turns[op].phase.outcome.observation)
    else RetainedEvidence(NOTHING_OBSERVED)
  }

  function PublishedRecord(s: State, op: OperationId, failed: bool): Record
    requires op in s.records && s.continuity.Stopping?
    requires forall d | d in s.continuity.deferred :: s.continuity.deferred[d].state.Terminal()
  {
    var c := s.continuity;
    var r := s.records[op];
    if op in c.doomed then r.SetTerminal(InDoubt, LostEvidence(s, op, c.held), ContinuityLost)
    else if op in c.deferred then
      var d := c.deferred[op];
      var result := if d.result.NoResult? then LostEvidence(s, op, c.held) else d.result;
      if failed then r.SetTerminal(InDoubt, result, CleanupSettlementUnknown)
      else r.SetTerminal(d.state, result, d.error)
    else r
  }

  /** The end of `mark_generation_lost`, then of `_quarantine_uncertain` and of the worker
      that called it: outcomes are published only here. */
  function Publish(s: State, stopSettled: bool, failed: bool): (s': State)
    requires s.continuity.Stopping?
    requires forall d | d in s.continuity.deferred :: s.continuity.deferred[d].state.Terminal()
    ensures s'.continuity == Closed(stopSettled, failed) && s'.staleExpiries == s.staleExpiries
  {
    var published := s.(
      records := map op | op in s.records :: PublishedRecord(s, op, failed),
      continuity := Closed(stopSettled, failed));
    match s.continuity.owner
    case External => published
    case ByWorker(op) => if UnwindReady(published, op) then Unwind(published, op) else published
  }

  predicate UnwindReady(s: State, op: OperationId) {
    && op in s.workers && op in s.records && s.records[op].session in s.sessions
    && (op in s.requests ==> s.requests[op].session in s.sessions)
  }

  /** `gather` returns once every cancelled task is done. */
  predicate Drained(s: State) {
    && s.continuity.Draining?
    && (forall op | op in s.workers :: s.continuity.owner == ByWorker(op))
    && (forall op | op in s.turns && s.turns[op].cancelled :: s.turns[op].phase.Done?)
  }

  predicate Publishable(s: State) {
    s.continuity.Stopping? && forall d | d in s.continuity.deferred :: s.continuity.deferred[d].state.Terminal()
  }

  // ---------------------------------------------------------------- the machine

  datatype Event =
    | Create(create: CreateRequest, alive: bool, allocates: bool)
    | SubmitPrompt(prompt: PromptRequest, alive: bool)
    | SubmitCancel(cancel: CancelCall, alive: bool)
    | SubmitRetire(retire: RetireCall, alive: bool)
    | Enter(op: OperationId)
    | TurnStarts(op: OperationId)
    | TurnEnds(op: OperationId, outcome: TurnOutcome)
    | WorkerSeesTurn(op: OperationId)
    | DeadlinePasses(op: OperationId)
    | DeadlineCancelReturns(op: OperationId, sent: bool)
    | GraceSeesTurn(op: OperationId)
    | GracePasses(op: OperationId)
    | CancelStarts(op: OperationId)
    | CancelReturns(op: OperationId, sent: bool)
    | CancelSeesTarget(op: OperationId)
    | CancelGracePasses(op: OperationId)
    | RetireStarts(op: OperationId)
    | RetireReturns(op: OperationId, settled: bool, destroyed: bool)
    | CancelledWorkerResumes(op: OperationId)
    | GenerationLost
    | TasksDrained
    | DrainingCallerCancelled
    | StopReturns(failed: bool)

  predicate Enabled(s: State, e: Event) {
    match e
    case Create(_, _, _) => true
    case SubmitPrompt(_, _) => true
    case SubmitCancel(_, _) => true
    case SubmitRetire(_, _) => true
    case Enter(op) => PromptAt(s, op, Scheduled) || PromptAt(s, op, AwaitLock)
    case TurnStarts(op) => op in s.turns && s.turns[op] == Turn(Created, false)
    // A cancelled task that never started ends cancelled; otherwise the client decides,
    // and reports a cancelled task only when it was asked to cancel.
    case TurnEnds(op, outcome) =>
      && op in s.turns
      && (if s.turns[op].phase.Created? then s.turns[op].cancelled && outcome.TaskCancelled?
          else s.turns[op].phase.Running? && (outcome.TaskCancelled? ==> s.turns[op].cancelled))
    case WorkerSeesTurn(op) => PromptWithTurn(s, op, AwaitTurn)
    case DeadlinePasses(op) => PromptAt(s, op, AwaitTurn)
    case DeadlineCancelReturns(op, _) => PromptAt(s, op, SendDeadlineCancel)
    case GraceSeesTurn(op) => PromptWithTurn(s, op, DeadlineGrace)
    case GracePasses(op) => PromptAt(s, op, DeadlineGrace)
    case CancelStarts(op) => ControlAt(s, op, CancelRequest, Scheduled)
    case CancelReturns(op, _) => ControlAt(s, op, CancelRequest, SendCancel)
    case CancelSeesTarget(op) =>
      ControlAt(s, op, CancelRequest, AwaitTarget) && s.records[s.records[op].target.value].state.Terminal()
    case CancelGracePasses(op) => ControlAt(s, op, CancelRequest, AwaitTarget)
    case RetireStarts(op) => ControlAt(s, op, RetireSession, Scheduled)
    case RetireReturns(op, _, _) => ControlAt(s, op, RetireSession, AwaitRetire)
    case CancelledWorkerResumes(op) => UnwindReady(s, op) && s.workers[op].cancelled
    case GenerationLost => s.continuity.Current?
    case TasksDrained => Drained(s)
    case DrainingCallerCancelled => Drained(s) && s.continuity.owner.External?
                                    && forall d | d in s.continuity.deferred :: s.continuity.deferred[d].state.Terminal()
    case StopReturns(_) => Publishable(s)
  }

  function ToStopping(c: Continuity): Continuity
    requires c.Draining?
  {
    Stopping(c.owner, c.doomed, c.deferred, c.held)
  }

  function Next(s: State, e: Event): State
    requires Enabled(s, e)
  {
    match e
    case Create(r, alive, allocates) => AdmitCreate(s, r, alive, allocates).0
    case SubmitPrompt(r, alive) => AdmitPrompt(s, r, alive).0
    case SubmitCancel(r, alive) => AdmitCancel(s, r, alive).0
    case SubmitRetire(r, alive) => AdmitRetire(s, r, alive).0
    case Enter(op) => EnterPrompt(s, op)
    case TurnStarts(op) =>
      s.(turns := s.turns[op := Turn(TurnPhase.Running, false)], started := s.started + [op])
    case TurnEnds(op, outcome) => s.(turns := s.turns[op := s.turns[op].(phase := Done(outcome))])
    case WorkerSeesTurn(op) => ResumeTurn(s, op)
    case DeadlinePasses(op) => ReachDeadline(s, op)
    case DeadlineCancelReturns(op, sent) => DeadlineCancelSent(s, op, sent)
    case GraceSeesTurn(op) => ResumeGrace(s, op)
    case GracePasses(op) => GraceExpired(s, op)
    case CancelStarts(op) => StartControl(s, op, SendCancel)
    case CancelReturns(op, sent) => ManualCancelSent(s, op, sent)
    case CancelSeesTarget(op) => TargetDone(s, op)
    case CancelGracePasses(op) => TargetExpired(s, op)
    case RetireStarts(op) => StartControl(s, op, AwaitRetire)
    case RetireReturns(op, settled, destroyed) => RetireFinished(s, op, settled, destroyed)
    case CancelledWorkerResumes(op) => Unwind(s, op)
    case GenerationLost => Quarantine(s, External, map[])
    case TasksDrained => s.(continuity := ToStopping(s.continuity))
    case DrainingCallerCancelled => Publish(s.(continuity := ToStopping(s.continuity)), false, false)
    case StopReturns(failed) => Publish(s, true, failed)
  }

  /** An event that is not possible now changes nothing, so every event list is a run. */
  function Step(s: State, e: Event): State {
    if Enabled(s, e) then Next(s, e) else s
  }

  function Run(s: State, events: seq<Event>): State
    decreases |events|
  {
    if events == [] then s else Run(Step(s, events[0]), events[1..])
  }
}
