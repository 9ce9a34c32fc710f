/** Every step of the direct service keeps its invariants. */
module DirectSteps {
  import opened Basics
  import opened DirectState
  import opened DirectProtocol
  import opened DirectInvariants
  import opened DirectPatches

  // ---------------------------------------------------------------- admission

  lemma CreatePatches(s: State, r: CreateRequest, alive: bool, allocates: bool)
    requires Shape(s)
    ensures var s' := AdmitCreate(s, r, alive, allocates).0; s' != s ==> Patch(s, s', r.op)
  {
  }

  lemma CreateLocal(s: State, r: CreateRequest, alive: bool, allocates: bool)
    requires Inv(s)
    ensures var s' := AdmitCreate(s, r, alive, allocates).0; s' != s ==> Local(s, s', r.op)
  {
    if AdmitCreate(s, r, alive, allocates).0 != s {
      assert r.op !in s.requests && r.op !in s.workers && r.op !in s.turns;
    }
  }

  lemma CreateKeeps(s: State, r: CreateRequest, alive: bool, allocates: bool)
    requires Inv(s)
    ensures Kept(s, AdmitCreate(s, r, alive, allocates).0)
  {
    CreatePatches(s, r, alive, allocates);
    CreateLocal(s, r, alive, allocates);
    hide AdmitCreate;
    var s' := AdmitCreate(s, r, alive, allocates).0;
    if s' != s {
      PatchKeeps(s, s', r.op);
    } else {
      assert s' == s;
    }
  }

  lemma PromptPatches(s: State, r: PromptRequest, alive: bool)
    requires Shape(s)
    ensures var s' := AdmitPrompt(s, r, alive).0; s' != s ==> Patch(s, s', r.op)
  {
  }

  lemma PromptLocal(s: State, r: PromptRequest, alive: bool)
    requires Inv(s)
    ensures var s' := AdmitPrompt(s, r, alive).0; s' != s ==> Local(s, s', r.op)
  {
    if AdmitPrompt(s, r, alive).0 != s {
      assert r.op !in s.requests && r.op !in s.workers && r.op !in s.turns && r.op !in s.released;
      assert SessionOk(s, r.session) && InstructionsOk(s, r.session);
    }
  }

  lemma PromptKeeps(s: State, r: PromptRequest, alive: bool)
    requires Inv(s)
    ensures Kept(s, AdmitPrompt(s, r, alive).0)
  {
    var s' := AdmitPrompt(s, r, alive).0;
    if s' != s {
      PromptPatches(s, r, alive);
      PromptLocal(s, r, alive);
      PatchKeeps(s, s', r.op);
    }
  }

  lemma RetireKeeps(s: State, r: RetireCall, alive: bool)
    requires Inv(s)
    ensures Kept(s, AdmitRetire(s, r, alive).0)
  {
    var s' := AdmitRetire(s, r, alive).0;
    if s' != s {
      assert r.op !in s.requests && r.op !in s.workers && r.op !in s.turns;
      assert SessionOk(s, r.session) && InstructionsOk(s, r.session);
      assert Patch(s, s', r.op);
      RetireLocal(s, r, alive);
      PatchKeeps(s, s', r.op);
    }
  }

  lemma RetireLocal(s: State, r: RetireCall, alive: bool)
    requires Inv(s)
    ensures var s' := AdmitRetire(s, r, alive).0; s' != s ==> Local(s, s', r.op)
  {
    if AdmitRetire(s, r, alive).0 != s {
      assert r.op !in s.requests && r.op !in s.workers && r.op !in s.turns;
      assert SessionOk(s, r.session) && InstructionsOk(s, r.session);
    }
  }

  // ---------------------------------------------------------------- moves of one worker

  /** An undisturbed worker goes on to another suspension point. */
  function Move(s: State, op: OperationId, state: OperationState, at: Point): State
    requires op in s.records
  {
    s.(records := s.records[op := s.records[op].(state := state)], workers := s.workers[op := Worker(at, false)])
  }

  lemma MoveLocal(s: State, op: OperationId, state: OperationState, at: Point)
    requires Inv(s) && op in s.workers && op in s.records && s.continuity.Current?
    requires !s.records[op].state.Terminal() && !state.Terminal() && !at.Settling?
    requires PointOk(Move(s, op, state, at), op)
    requires s.lock == Some(op) ==> at.AwaitTurn? || at.SendDeadlineCancel? || at.DeadlineGrace?
    ensures Local(s, Move(s, op, state, at), op)
  {
    assert RecordShape(s, op) && WorkerOk(s, op) && ReceiptTruth(s, op) && EngagedOk(s, op);
    assert SessionOk(s, s.records[op].session) && InstructionsOk(s, s.records[op].session);
    if op in s.requests { assert PromptTruth(s, op) && ReleasedOk(s, op); }
    if op in s.turns { assert TurnOk(s, op); }
  }

  lemma MoveKeeps(s: State, op: OperationId, state: OperationState, at: Point)
    requires Inv(s) && op in s.workers && op in s.records && s.continuity.Current?
    requires !s.records[op].state.Terminal() && !state.Terminal() && !at.Settling?
    requires PointOk(Move(s, op, state, at), op)
    requires s.lock == Some(op) ==> at.AwaitTurn? || at.SendDeadlineCancel? || at.DeadlineGrace?
    ensures Kept(s, Move(s, op, state, at))
  {
    var s' := Move(s, op, state, at);
    assert Patch(s, s', op);
    MoveLocal(s, op, state, at);
    PatchKeeps(s, s', op);
  }

  /** A worker that is not cancelled, and not settling a loss, proves that continuity holds. */
  lemma UndisturbedWorker(s: State, op: OperationId)
    requires Inv(s) && op in s.workers && !s.workers[op].cancelled && !s.workers[op].at.Settling?
    ensures s.continuity.Current? && op in s.records && RecordShape(s, op) && PointOk(s, op)
  {
    assert WorkerOk(s, op) && RecordShape(s, op);
  }

  lemma DeadlineKeeps(s: State, op: OperationId)
    requires Inv(s) && PromptAt(s, op, AwaitTurn)
    ensures Kept(s, ReachDeadline(s, op))
  {
    UndisturbedWorker(s, op);
    MoveKeeps(s, op, Cancelling, SendDeadlineCancel);
  }

  lemma CancelSentKeeps(s: State, op: OperationId)
    requires Inv(s) && (PromptAt(s, op, SendDeadlineCancel) || ControlAt(s, op, CancelRequest, SendCancel))
    ensures Kept(s, if s.workers[op].at.SendCancel? then ManualCancelSent(s, op, true) else DeadlineCancelSent(s, op, true))
  {
    UndisturbedWorker(s, op);
    var at := if s.workers[op].at.SendCancel? then AwaitTarget else DeadlineGrace;
    assert s.records[op := s.records[op].(state := s.records[op].state)] == s.records;
    MoveKeeps(s, op, s.records[op].state, at);
  }

  lemma StartKeeps(s: State, op: OperationId, kind: OperationKind)
    requires Inv(s) && ControlAt(s, op, kind, Scheduled) && (kind.CancelRequest? || kind.RetireSession?)
    ensures Kept(s, StartControl(s, op, if kind.CancelRequest? then SendCancel else AwaitRetire))
  {
    UndisturbedWorker(s, op);
    MoveKeeps(s, op, OperationState.Running, if kind.CancelRequest? then SendCancel else AwaitRetire);
  }

  // ---------------------------------------------------------------- cancellation requests

  lemma PreDispatchPatches(s: State, target: OperationId)
    requires Shape(s) && target in s.requests && target in s.records && s.records[target].session in s.sessions
    requires s.continuity.Current? && !s.records[target].state.Terminal()
    ensures Patch(s, CancelBeforeDispatch(s, target), target)
  {
  }

  lemma PreDispatchLocal(s: State, target: OperationId)
    requires Inv(s) && s.continuity.Current? && target in s.requests && target in s.records
    requires s.records[target].session in s.sessions
    requires s.records[target].state.Accepted? || s.records[target].state.Queued?
    ensures Local(s, CancelBeforeDispatch(s, target), target)
  {
    assert RecordShape(s, target) && HasOwner(s, target) && WorkerOk(s, target) && PromptTruth(s, target);
    assert ReceiptTruth(s, target) && EngagedOk(s, target) && ReleasedOk(s, target);
    assert SessionOk(s, s.records[target].session) && InstructionsOk(s, s.records[target].session);
  }

  lemma PreDispatchKeeps(s: State, target: OperationId)
    requires Inv(s) && s.continuity.Current? && target in s.requests && target in s.records
    requires s.records[target].session in s.sessions
    requires s.records[target].state.Accepted? || s.records[target].state.Queued?
    ensures Kept(s, CancelBeforeDispatch(s, target))
  {
    PreDispatchPatches(s, target);
    PreDispatchLocal(s, target);
    PatchKeeps(s, CancelBeforeDispatch(s, target), target);
  }

  lemma TouchKeeps(s: State, target: OperationId)
    requires Inv(s) && s.continuity.Current? && target in s.requests && target in s.records
    ensures Kept(s, TouchTarget(s, target))
  {
    assert RecordShape(s, target);
    var t := s.records[target].state;
    if t.Accepted? || t.Queued? {
      PreDispatchKeeps(s, target);
    } else if !t.Terminal() {
      assert HasOwner(s, target) && WorkerOk(s, target);
      MoveKeeps(s, target, Cancelling, s.workers[target].at);
      assert Move(s, target, Cancelling, s.workers[target].at).workers == s.workers;
    }
  }

  /** The second half of the step: the cancellation's own record. */
  lemma AddCancelSessions(s: State, op: OperationId, entry: Record, target: OperationId)
    requires Inv(s) && s.continuity.Current? && op !in s.records && target in s.requests && target in s.records
    requires entry == NewRecord(entry.digest, CancelRequest, s.records[target].session, None, Some(target))
    ensures var s' := AddCancel(s, op, entry, target);
            op in s'.records && s'.records[op].session in s'.sessions && LocalSessions(s, s', op)
  {
    hide Truth, Owned, Reserved, Tasks;
    assert RecordShape(s, target);
    assert op !in s.requests;
    assert SessionOk(s, entry.session) && InstructionsOk(s, entry.session);
  }

  lemma AddCancelTasks(s: State, op: OperationId, entry: Record, target: OperationId)
    requires Inv(s) && s.continuity.Current? && op !in s.records && target in s.requests && target in s.records
    requires entry == NewRecord(entry.digest, CancelRequest, s.records[target].session, None, Some(target))
    ensures var s' := AddCancel(s, op, entry, target); LocalShape(s', op) && LocalTasks(s, s', op)
  {
    hide Truth, Owned, Reserved, Sessions;
    assert RecordShape(s, target);
    assert op !in s.requests && op !in s.workers && op !in s.turns;
  }

  lemma AddCancelLocal(s: State, op: OperationId, entry: Record, target: OperationId)
    requires Inv(s) && s.continuity.Current? && op !in s.records && target in s.requests && target in s.records
    requires entry == NewRecord(entry.digest, CancelRequest, s.records[target].session, None, Some(target))
    ensures Local(s, AddCancel(s, op, entry, target), op)
  {
    AddCancelSessions(s, op, entry, target);
    AddCancelTasks(s, op, entry, target);
    assert op !in s.requests;
    hide LocalSessions, LocalTasks, LocalShape, Sessions, Tasks;
  }

  lemma AddCancelKeeps(s: State, op: OperationId, entry: Record, target: OperationId)
    requires Inv(s) && s.continuity.Current? && op !in s.records && target in s.requests && target in s.records
    requires entry == NewRecord(entry.digest, CancelRequest, s.records[target].session, None, Some(target))
    ensures Kept(s, AddCancel(s, op, entry, target))
  {
    assert RecordShape(s, target);
    assert op !in s.requests && op !in s.workers && op !in s.turns;
    var s' := AddCancel(s, op, entry, target);
    assert Patch(s, s', op);
    AddCancelLocal(s, op, entry, target);
    PatchKeeps(s, s', op);
  }

  lemma TouchFrame(s: State, target: OperationId)
    requires target in s.records
    ensures s.records[target].SameIdentity(TouchTarget(s, target).records[target])
    ensures TouchTarget(s, target).records.Keys == s.records.Keys
    ensures TouchTarget(s, target).requests == s.requests
  {
    var t := s.records[target];
    if (t.state.Accepted? || t.state.Queued?) && t.session in s.sessions {
      PreDispatchFrame(s, target);
      hide CancelBeforeDispatch;
    } else {
      hide CancelBeforeDispatch;
    }
  }

  lemma PreDispatchFrame(s: State, target: OperationId)
    requires target in s.records && s.records[target].session in s.sessions
    ensures s.records[target].SameIdentity(CancelBeforeDispatch(s, target).records[target])
    ensures CancelBeforeDispatch(s, target).records.Keys == s.records.Keys
    ensures CancelBeforeDispatch(s, target).requests == s.requests
  {
  }

  lemma CancelForm(s: State, r: CancelCall, alive: bool)
    requires Shape(s) && AdmitCancel(s, r, alive).0 != s
    ensures s.continuity.Current? && r.op !in s.records && r.target in s.records && r.target in s.requests
    ensures AdmitCancel(s, r, alive).0
         == AddCancel(TouchTarget(s, r.target), r.op,
                      NewRecord(r.digest, CancelRequest, s.records[r.target].session, None, Some(r.target)), r.target)
  {
    hide TouchTarget, AddCancel;
    assert RecordShape(s, r.target);
  }

  lemma CancelKeeps(s: State, r: CancelCall, alive: bool)
    requires Inv(s)
    ensures Kept(s, AdmitCancel(s, r, alive).0)
  {
    if AdmitCancel(s, r, alive).0 != s {
      CancelForm(s, r, alive);
      TouchFrame(s, r.target);
      TouchKeeps(s, r.target);
      hide AdmitCancel, TouchTarget, AddCancel, Shape, Tasks, Owned, Truth, Sessions, Reserved, Progress;
      var touched := TouchTarget(s, r.target);
      AddCancelKeeps(touched, r.op,
                     NewRecord(r.digest, CancelRequest, s.records[r.target].session, None, Some(r.target)), r.target);
      ProgressTransitive(s, touched, AdmitCancel(s, r, alive).0);
    }
  }

  // ---------------------------------------------------------------- entering the lock

  function Dispatch(s: State, op: OperationId): State
    requires op in s.records
  {
    s.(records := s.records[op := s.records[op].(state := OperationState.Running)],
       lock := Some(op),
       workers := s.workers[op := Worker(AwaitTurn, false)],
       turns := s.turns[op := Turn(Created, false)],
       tracked := s.tracked + {op})
  }

  lemma DispatchLocal(s: State, op: OperationId)
    requires Inv(s) && (PromptAt(s, op, Scheduled) || PromptAt(s, op, AwaitLock)) && s.lock.None?
    requires !s.records[op].state.Terminal()
    ensures s.continuity.Current? && Local(s, Dispatch(s, op), op)
  {
    UndisturbedWorker(s, op);
    assert PromptTruth(s, op) && ReceiptTruth(s, op) && EngagedOk(s, op) && ReleasedOk(s, op);
    assert SessionOk(s, s.records[op].session) && InstructionsOk(s, s.records[op].session);
  }

  lemma DispatchPatches(s: State, op: OperationId)
    requires op in s.records && s.lock.None? && s.continuity.Current? && !s.records[op].state.Terminal()
    ensures Patch(s, Dispatch(s, op), op)
  {
  }

  lemma DispatchKeeps(s: State, op: OperationId)
    requires Inv(s) && (PromptAt(s, op, Scheduled) || PromptAt(s, op, AwaitLock)) && s.lock.None?
    requires !s.records[op].state.Terminal()
    ensures Kept(s, Dispatch(s, op))
  {
    DispatchLocal(s, op);
    DispatchPatches(s, op);
    hide Inv, Patch, Local, Kept, Dispatch;
    PatchKeeps(s, Dispatch(s, op), op);
  }

  lemma WaitKeeps(s: State, op: OperationId)
    requires Inv(s) && (PromptAt(s, op, Scheduled) || PromptAt(s, op, AwaitLock))
    requires !s.records[op].state.Terminal()
    ensures Kept(s, s.(workers := s.workers[op := Worker(AwaitLock, false)]))
  {
    UndisturbedWorker(s, op);
    assert WorkerOk(s, op) && LockOk(s);
    hide Shape, Tasks, Owned, Truth, Sessions, Reserved, Kept;
    assert s.records[op := s.records[op].(state := s.records[op].state)] == s.records;
    MoveKeeps(s, op, s.records[op].state, AwaitLock);
  }

  lemma EnterKeeps(s: State, op: OperationId)
    requires Inv(s) && (PromptAt(s, op, Scheduled) || PromptAt(s, op, AwaitLock))
    ensures Kept(s, EnterPrompt(s, op))
  {
    hide Inv, Kept, FinishPrompt;
    if MustWait(s, op) {
      if s.records[op].state.Terminal() {
        QueueTerminalKeeps(s, op);
      } else {
        WaitKeeps(s, op);
      }
    } else if s.records[op].state.Terminal() {
      LeaveKeeps(s, op);
    } else {
      DispatchKeeps(s, op);
    }
  }

  /** Only the worker of a settled prompt changes. */
  lemma WorkerPatchHere(s: State, s': State, op: OperationId)
    requires s.continuity.Current? && op in s.requests && op in s.records && op in s.workers
    requires s.records[op].state.Terminal() && s.lock != Some(op) && LockOk(s)
    requires RecordShape(s, op) && PromptTruth(s, op) && ReceiptTruth(s, op) && EngagedOk(s, op) && ReleasedOk(s, op)
    requires SessionOk(s, s.records[op].session) && InstructionsOk(s, s.records[op].session)
    requires (op in s.tracked || op in s.started ==> op in s.turns) && (op in s.turns ==> TurnOk(s, op))
    requires op in s.released ==> op in s.requests
    requires s' == s.(workers := s.workers - {op})
          || (s.records[op].state.Cancelled? && op !in s.turns
              && s' == s.(workers := s.workers[op := Worker(AwaitLock, false)]))
    ensures Local(s, s', op)
  {
  }

  lemma WorkerPatchKeeps(s: State, s': State, op: OperationId)
    requires Inv(s) && s.continuity.Current? && op in s.requests && op in s.records && op in s.workers
    requires s.records[op].state.Terminal() && s.lock != Some(op)
    requires s' == s.(workers := s.workers - {op})
          || (s.records[op].state.Cancelled? && op !in s.turns
              && s' == s.(workers := s.workers[op := Worker(AwaitLock, false)]))
    ensures Kept(s, s')
  {
    assert RecordShape(s, op) && PromptTruth(s, op) && ReceiptTruth(s, op) && EngagedOk(s, op) && ReleasedOk(s, op);
    assert SessionOk(s, s.records[op].session) && InstructionsOk(s, s.records[op].session);
    if op in s.turns { assert TurnOk(s, op); }
    hide Kept, Local, Patch;
    WorkerPatches(s, s', op);
    WorkerPatchHere(s, s', op);
    hide Inv;
    PatchKeeps(s, s', op);
  }

  lemma WorkerPatches(s: State, s': State, op: OperationId)
    requires Shape(s) && op in s.records
    requires s' == s.(workers := s.workers - {op}) || s' == s.(workers := s.workers[op := Worker(AwaitLock, false)])
    ensures Patch(s, s', op)
  {
  }

  /** A prompt cancelled before dispatch may still have a worker that queues ... */
  lemma QueueTerminalKeeps(s: State, op: OperationId)
    requires Inv(s) && (PromptAt(s, op, Scheduled) || PromptAt(s, op, AwaitLock))
    requires s.records[op].state.Terminal()
    ensures Kept(s, s.(workers := s.workers[op := Worker(AwaitLock, false)]))
  {
    UndisturbedWorker(s, op);
    WorkerPatchKeeps(s, s.(workers := s.workers[op := Worker(AwaitLock, false)]), op);
  }

  /** ... and that leaves without a trace: neither a turn nor a session is touched. */
  lemma LateDrainTouchesNothing(s: State, op: OperationId)
    requires Inv(s) && (PromptAt(s, op, Scheduled) || PromptAt(s, op, AwaitLock))
    requires s.records[op].state.Terminal() && !MustWait(s, op)
    ensures EnterPrompt(s, op) == s.(workers := s.workers - {op})
  {
    UndisturbedWorker(s, op);
    assert ReleasedOk(s, op) && SessionOk(s, s.records[op].session);
    assert s.sessions[s.requests[op].session := s.sessions[s.requests[op].session]] == s.sessions;
  }

  lemma LeaveKeeps(s: State, op: OperationId)
    requires Inv(s) && (PromptAt(s, op, Scheduled) || PromptAt(s, op, AwaitLock))
    requires s.records[op].state.Terminal() && !MustWait(s, op)
    ensures Kept(s, EnterPrompt(s, op))
  {
    LateDrainTouchesNothing(s, op);
    UndisturbedWorker(s, op);
    WorkerPatchKeeps(s, s.(workers := s.workers - {op}), op);
  }

  // ---------------------------------------------------------------- turns

  lemma TurnStartKeeps(s: State, op: OperationId)
    requires Inv(s) && op in s.turns && s.turns[op] == Turn(Created, false)
    ensures s.continuity.Current? && Kept(s, Next(s, TurnStarts(op)))
  {
    var s' := s.(turns := s.turns[op := Turn(TurnPhase.Running, false)], started := s.started + [op]);
    hide Tasks, Owned, Truth, Sessions, Reserved, Local, Kept, Patch;
    TurnLocal(s, s', op);
    TurnPatches(s, s', op);
    hide Inv, Shape, Enabled;
    PatchKeeps(s, s', op);
  }

  lemma TurnEndKeeps(s: State, op: OperationId, outcome: TurnOutcome)
    requires Inv(s) && Enabled(s, TurnEnds(op, outcome))
    ensures Kept(s, Next(s, TurnEnds(op, outcome)))
  {
    var s' := s.(turns := s.turns[op := s.turns[op].(phase := Done(outcome))]);
    TurnLocal(s, s', op);
    TurnPatches(s, s', op);
    PatchKeeps(s, s', op);
  }

  lemma TurnPatches(s: State, s': State, op: OperationId)
    requires Shape(s) && op in s.turns
    requires op in s'.turns && s' == s.(turns := s.turns[op := s'.turns[op]], started := s'.started)
    requires s'.started == s.started
          || (s.continuity.Current? && op !in s.started && s'.started == s.started + [op])
    ensures Patch(s, s', op)
  {
  }

  lemma TurnLocal(s: State, s': State, op: OperationId)
    requires Inv(s) && op in s.turns
    requires
      || (s.turns[op] == Turn(Created, false)
          && s' == s.(turns := s.turns[op := Turn(TurnPhase.Running, false)], started := s.started + [op]))
      || exists outcome :: Enabled(s, TurnEnds(op, outcome))
           && s' == s.(turns := s.turns[op := s.turns[op].(phase := Done(outcome))])
    ensures Local(s, s', op)
    ensures s.turns[op] == Turn(Created, false) ==> s.continuity.Current? && op !in s.started
  {
    assert op in s.requests && op in s.records;
    assert TurnOk(s, op) && RecordShape(s, op) && PromptTruth(s, op) && ReceiptTruth(s, op);
    assert InstructionsOk(s, s.records[op].session);
    assert Unfinished1(s, op);
    if op in s.workers { assert WorkerOk(s, op); }
    if s.continuity.Current? {
      assert HasOwner(s, op) && EngagedOk(s, op) && ReleasedOk(s, op) && SessionOk(s, s.records[op].session);
    }
  }

  // ---------------------------------------------------------------- settlement while continuity holds

  lemma {:induction false} RecordSubmissionWellFormed(instructions: InstructionState, r: PromptRequest)
    requires WellFormed(instructions) && PhaseAllowed(instructions, r)
    ensures WellFormed(RecordSubmission(instructions, r)) && RecordSubmission(instructions, r).Submitted?
  {
    match r.phase
    case Initial(_, _) =>
      assert RecordSubmission(instructions, r).contracts[0].0 == r.invocation;
    case Invocation(_) =>
      var contracts := instructions.contracts + [(r.invocation, r.contractDigest)];
      assert contracts[|instructions.contracts|].0 == r.invocation;
    case _ =>
  }

  predicate SettleAllowed(s: State, op: OperationId, outcome: OperationState, result: Result, error: ErrorCode,
                          use: SessionState, instructions: InstructionState)
  {
    && op in s.requests && op in s.records && s.records[op].session in s.sessions && op in s.turns
    && s.turns[op].phase.Done?
    && FitsTurn(outcome, result, error, s.turns[op].phase.outcome)
    && (if outcome.Completed? then
          && use.Ready?
          && instructions == RecordSubmission(s.sessions[s.records[op].session].instructions, s.requests[op])
        else
          && use.NonReusable? && instructions == s.sessions[s.records[op].session].instructions)
  }

  /** Everything a settlement changes, with `_execute_prompt`'s `finally` worked out. */
  function Settled(s: State, op: OperationId, outcome: OperationState, result: Result, error: ErrorCode,
                   use: SessionState, instructions: InstructionState): State
    requires op in s.records && s.records[op].session in s.sessions
  {
    var sid := s.records[op].session;
    s.(records := s.records[op := s.records[op].(state := outcome, result := result, error := error)],
       sessions := s.sessions[sid := s.sessions[sid].(active := None, state := use, instructions := instructions)],
       workers := s.workers - {op},
       lock := None,
       tracked := s.tracked - {op},
       released := s.released + {op},
       reservations := s.reservations - 1)
  }

  lemma SettleIs(s: State, op: OperationId, outcome: OperationState, result: Result, error: ErrorCode,
                 use: SessionState, instructions: InstructionState)
    requires op in s.records && op in s.requests && s.records[op].session in s.sessions
    requires s.requests[op].session == s.records[op].session
    requires op in s.turns && s.turns[op].phase.Done? && op !in s.released
    requires s.continuity.Current? && s.lock == Some(op) && !s.records[op].state.Terminal()
    requires outcome.Terminal() && (use.NonReusable? || outcome.Completed?)
    ensures Settle(s, op, outcome, result, error, use, instructions)
         == Settled(s, op, outcome, result, error, use, instructions)
  {
    var sid := s.records[op].session;
    var session := s.sessions[sid].(active := None, state := use, instructions := instructions);
    assert s.sessions[sid := session][sid := session] == s.sessions[sid := session];
  }

  lemma SettledHere(s: State, op: OperationId, outcome: OperationState, result: Result, error: ErrorCode,
                    use: SessionState, instructions: InstructionState)
    requires PromptAt(s, op, AwaitTurn) || PromptAt(s, op, DeadlineGrace)
    requires SettleAllowed(s, op, outcome, result, error, use, instructions)
    requires s.continuity.Current? && s.staleExpiries == {} && s.lock == Some(op)
    requires RecordShape(s, op) && TurnOk(s, op) && PromptTruth(s, op) && EngagedOk(s, op) && ReleasedOk(s, op)
    requires !s.records[op].state.Terminal() && SessionOk(s, s.records[op].session)
    requires WellFormed(instructions)
    ensures Local(s, Settled(s, op, outcome, result, error, use, instructions), op)
  {
  }

  lemma SettledLocal(s: State, op: OperationId, outcome: OperationState, result: Result, error: ErrorCode,
                     use: SessionState, instructions: InstructionState)
    requires Inv(s) && (PromptAt(s, op, AwaitTurn) || PromptAt(s, op, DeadlineGrace))
    requires SettleAllowed(s, op, outcome, result, error, use, instructions)
    ensures Local(s, Settled(s, op, outcome, result, error, use, instructions), op)
  {
    hide Local, Settled, FitsTurn;
    UndisturbedWorker(s, op);
    assert TurnOk(s, op) && PromptTruth(s, op) && EngagedOk(s, op) && ReleasedOk(s, op);
    assert SessionOk(s, s.records[op].session) && InstructionsOk(s, s.records[op].session);
    if outcome.Completed? {
      RecordSubmissionWellFormed(s.sessions[s.records[op].session].instructions, s.requests[op]);
    }
    hide Inv, PromptTruth, EngagedOk, SessionOk, TurnOk, RecordSubmission;
    SettledHere(s, op, outcome, result, error, use, instructions);
  }

  lemma SettleKeeps(s: State, op: OperationId, outcome: OperationState, result: Result, error: ErrorCode,
                    use: SessionState, instructions: InstructionState)
    requires Inv(s) && (PromptAt(s, op, AwaitTurn) || PromptAt(s, op, DeadlineGrace))
    requires SettleAllowed(s, op, outcome, result, error, use, instructions)
    ensures Kept(s, Settle(s, op, outcome, result, error, use, instructions))
  {
    UndisturbedWorker(s, op);
    assert ReleasedOk(s, op);
    SettleIs(s, op, outcome, result, error, use, instructions);
    SettledLocal(s, op, outcome, result, error, use, instructions);
    SettledPatches(s, op, outcome, result, error, use, instructions);
    PatchKeeps(s, Settled(s, op, outcome, result, error, use, instructions), op);
  }

  lemma SettledPatches(s: State, op: OperationId, outcome: OperationState, result: Result, error: ErrorCode,
                       use: SessionState, instructions: InstructionState)
    requires Inv(s) && (PromptAt(s, op, AwaitTurn) || PromptAt(s, op, DeadlineGrace))
    requires SettleAllowed(s, op, outcome, result, error, use, instructions)
    ensures Patch(s, Settled(s, op, outcome, result, error, use, instructions), op)
  {
    UndisturbedWorker(s, op);
  }

  lemma TargetDonePatches(s: State, op: OperationId)
    requires ControlAt(s, op, CancelRequest, AwaitTarget) && s.continuity.Current? && !s.records[op].state.Terminal()
    requires s.records[s.records[op].target.value].state.Terminal()
    ensures Patch(s, TargetDone(s, op), op)
  {
  }

  lemma TargetDoneLocal(s: State, op: OperationId)
    requires Inv(s) && ControlAt(s, op, CancelRequest, AwaitTarget)
    requires s.records[s.records[op].target.value].state.Terminal()
    ensures Local(s, TargetDone(s, op), op)
  {
    UndisturbedWorker(s, op);
    assert ReceiptTruth(s, op) && EngagedOk(s, op);
    assert SessionOk(s, s.records[op].session) && InstructionsOk(s, s.records[op].session);
  }

  lemma TargetDoneKeeps(s: State, op: OperationId)
    requires Inv(s) && ControlAt(s, op, CancelRequest, AwaitTarget)
    requires s.records[s.records[op].target.value].state.Terminal()
    ensures Kept(s, TargetDone(s, op))
  {
    UndisturbedWorker(s, op);
    TargetDoneLocal(s, op);
    TargetDonePatches(s, op);
    hide Inv, Patch, Local, Kept, TargetDone;
    PatchKeeps(s, TargetDone(s, op), op);
  }

  lemma RetireDoneKeeps(s: State, op: OperationId, destroyed: bool)
    requires Inv(s) && ControlAt(s, op, RetireSession, AwaitRetire)
    ensures Kept(s, RetireFinished(s, op, true, destroyed))
  {
    UndisturbedWorker(s, op);
    var s' := RetireFinished(s, op, true, destroyed);
    assert ReceiptTruth(s, op) && EngagedOk(s, op);
    assert SessionOk(s, s.records[op].session) && InstructionsOk(s, s.records[op].session);
    assert Patch(s, s', op);
    assert Local(s, s', op);
    PatchKeeps(s, s', op);
  }
}
