/** What one step of the direct service may do, stated over records and continuity alone: the life cycle of
    an operation, the steps that lose the generation, and the steps that settle a prompt. */
module DirectLaws {
  import opened Basics
  import opened DirectState
  import opened DirectProtocol
  import opened DirectInvariants
  import opened DirectSteps
  import opened DirectLoss
  import opened DirectTheorems

  // ---------------------------------------------------------------- the life cycle

  /** The edges of the life cycle. */
  predicate Edge(kind: OperationKind, a: OperationState, b: OperationState) {
    a == b ||
    match kind
    case CreateSession => false
    case Prompt =>
      || ((a.Accepted? || a.Queued?) && (b.Running? || b.Cancelled? || b.InDoubt?))
      || (a.Running? && (b.Cancelling? || b.Completed? || b.Failed? || b.Cancelled? || b.InDoubt?))
      || (a.Cancelling? && (b.Failed? || b.Cancelled? || b.TimedOut? || b.InDoubt?))
    case CancelRequest =>
      || (a.Accepted? && b.Running?) || (a.Running? && (b.Completed? || b.Failed?)) || (!a.Terminal() && b.InDoubt?)
    case RetireSession =>
      || (a.Accepted? && b.Running?) || (a.Running? && b.Completed?) || (!a.Terminal() && b.InDoubt?)
  }

  /** What they lead to. */
  predicate MayBecome(kind: OperationKind, a: OperationState, b: OperationState) {
    a == b ||
    match kind
    case CreateSession => false
    case Prompt =>
      || ((a.Accepted? || a.Queued? || a.Running?) && !b.Accepted? && !b.Queued?)
      || (a.Cancelling? && (b.Failed? || b.Cancelled? || b.TimedOut? || b.InDoubt?))
    case CancelRequest =>
      || (a.Accepted? && b.Running?) || ((a.Accepted? || a.Running?) && (b.Completed? || b.Failed?))
      || (!a.Terminal() && b.InDoubt?)
    case RetireSession =>
      || (a.Accepted? && b.Running?) || ((a.Accepted? || a.Running?) && b.Completed?) || (!a.Terminal() && b.InDoubt?)
  }

  /** Record `x` stays or takes one edge. */
  ghost predicate Moves(s: State, t: State, x: OperationId)
    requires x in s.records
  {
    x in t.records && t.records[x].kind == s.records[x].kind
    && Edge(s.records[x].kind, s.records[x].state, t.records[x].state)
  }

  lemma AdmissionMoves(s: State, e: Event, x: OperationId)
    requires Inv(s) && Enabled(s, e) && x in s.records
    requires e.Create? || e.SubmitPrompt? || e.SubmitCancel? || e.SubmitRetire?
    ensures Moves(s, Next(s, e), x)
  {
    hide Inv, Edge, AdmitCreate, AdmitPrompt, AdmitCancel, AdmitRetire;
    match e {
      case Create(r, alive, allocates) => CreationMoves(s, r, alive, allocates, x);
      case SubmitPrompt(r, alive) => SubmissionMoves(s, r, alive, x);
      case SubmitCancel(r, alive) => CancellationMoves(s, r, alive, x);
      case SubmitRetire(r, alive) => RetirementMoves(s, r, alive, x);
    }
  }

  lemma CreationMoves(s: State, r: CreateRequest, alive: bool, allocates: bool, x: OperationId)
    requires x in s.records
    ensures Moves(s, AdmitCreate(s, r, alive, allocates).0, x)
  {
  }

  lemma SubmissionMoves(s: State, r: PromptRequest, alive: bool, x: OperationId)
    requires x in s.records
    ensures Moves(s, AdmitPrompt(s, r, alive).0, x)
  {
    hide LifetimeValid;
  }

  lemma RetirementMoves(s: State, r: RetireCall, alive: bool, x: OperationId)
    requires x in s.records
    ensures Moves(s, AdmitRetire(s, r, alive).0, x)
  {
  }

  lemma CancellationMoves(s: State, r: CancelCall, alive: bool, x: OperationId)
    requires Inv(s) && x in s.records
    ensures Moves(s, AdmitCancel(s, r, alive).0, x)
  {
    if AdmitCancel(s, r, alive).0 != s {
      CancelForm(s, r, alive);
      hide Inv, TouchTarget, AdmitCancel, Edge;
      TouchedMoves(s, r.target, x);
      TouchFrame(s, r.target);
    }
  }

  lemma TouchedMoves(s: State, target: OperationId, x: OperationId)
    requires Inv(s) && target in s.requests && target in s.records && x in s.records
    ensures Moves(s, TouchTarget(s, target), x)
  {
    assert RecordShape(s, target);
    hide Inv;
  }

  lemma FinishLeavesRecords(s: State, op: OperationId, dispatched: bool)
    requires op in s.records && op in s.requests && s.requests[op].session in s.sessions
    ensures FinishPrompt(s, op, dispatched).records == s.records
  {
    hide ClearActive;
  }

  lemma TaskMoves(s: State, e: Event, x: OperationId)
    requires Inv(s) && Enabled(s, e) && x in s.records
    requires e.Enter? || e.TurnStarts? || e.TurnEnds? || e.DeadlinePasses? || e.DeadlineCancelReturns? || e.GracePasses?
    ensures Moves(s, Next(s, e), x)
  {
    if !e.TurnStarts? && !e.TurnEnds? {
      UndisturbedWorker(s, e.op);
    }
    if e.Enter? {
      FinishLeavesRecords(s, e.op, false);
    }
    hide Inv, FinishPrompt;
  }

  lemma ControlMoves(s: State, e: Event, x: OperationId)
    requires Inv(s) && Enabled(s, e) && x in s.records
    requires e.CancelStarts? || e.CancelReturns? || e.CancelSeesTarget? || e.CancelGracePasses?
          || e.RetireStarts? || e.RetireReturns?
    ensures Moves(s, Next(s, e), x)
  {
    hide Inv, Next, Enabled;
    ControlRecords(s, e);
    ControlState(s, e);
  }

  lemma ControlState(s: State, e: Event)
    requires Inv(s) && Enabled(s, e)
    requires e.CancelStarts? || e.CancelReturns? || e.CancelSeesTarget? || e.CancelGracePasses?
          || e.RetireStarts? || e.RetireReturns?
    ensures e.op in s.records
    ensures s.records[e.op].kind == if e.RetireStarts? || e.RetireReturns? then RetireSession else CancelRequest
    ensures if e.CancelStarts? || e.RetireStarts? then s.records[e.op].state.Accepted? else s.records[e.op].state.Running?
  {
    UndisturbedWorker(s, e.op);
    hide Inv;
  }

  /** A control task's step changes its own record or none. */
  lemma ControlRecords(s: State, e: Event)
    requires Enabled(s, e)
    requires e.CancelStarts? || e.CancelReturns? || e.CancelSeesTarget? || e.CancelGracePasses?
          || e.RetireStarts? || e.RetireReturns?
    ensures e.op in s.records && Next(s, e).continuity.Current? ==> s.continuity.Current?
    ensures Next(s, e).records ==
              if e.CancelStarts? || e.RetireStarts? then
                s.records[e.op := s.records[e.op].(state := OperationState.Running)]
              else if e.CancelSeesTarget? then
                s.records[e.op := s.records[e.op].SetTerminal(
                                    Completed, CancelReceipt(s.records[s.records[e.op].target.value].state, true), NoError)]
              else if e.RetireReturns? && e.settled then
                s.records[e.op := s.records[e.op].SetTerminal(Completed, SessionRetired(e.destroyed), NoError)]
              else s.records
  {
    hide LostSessions, CancelledWorkers, CancelledTurns, Unfinished;
  }

  // ---------------------------------------------------------------- the end of a turn

  /** A turn whose outcome leaves the prompt's own unknown, given the state of its record. */
  predicate Doubtful(o: TurnOutcome, state: OperationState) {
    || o.Unsettled? || o.RaisedOther?
    || (o.TurnCompleted? && o.observation.complete && (state.Cancelling? || !o.bindingMatches))
  }

  /** The sessions, with that of a prompt free again. */
  function WithSession(s: State, op: OperationId, use: SessionState, instructions: InstructionState): map<SessionId, Session>
    requires op in s.requests && s.requests[op].session in s.sessions
  {
    var sid := s.requests[op].session;
    s.sessions[sid := s.sessions[sid].(active := None, state := use, instructions := instructions)]
  }

  lemma FinishSessions(s: State, op: OperationId)
    requires op in s.records && op in s.requests && s.requests[op].session in s.sessions
    requires s.continuity.Current? && s.sessions[s.requests[op].session].active.None?
    requires s.records[op].state.Cancelled? || s.records[op].state.TimedOut? || s.records[op].state.InDoubt? ==>
               s.sessions[s.requests[op].session].state.NonReusable?
    ensures FinishPrompt(s, op, true).sessions == s.sessions
  {
  }

  lemma SettleFrees(s: State, op: OperationId, outcome: OperationState, result: Result, error: ErrorCode,
                    use: SessionState, instructions: InstructionState)
    requires op in s.records && op in s.requests && s.requests[op].session in s.sessions && outcome.Terminal()
    requires s.continuity.Current? && !s.records[op].state.Terminal()
    requires outcome.Cancelled? || outcome.TimedOut? || outcome.InDoubt? ==> use.NonReusable?
    ensures Settle(s, op, outcome, result, error, use, instructions).sessions == WithSession(s, op, use, instructions)
  {
    FinishSessions(PopDone(s, op).(records := s.records[op := s.records[op].SetTerminal(outcome, result, error)],
                                   sessions := WithSession(s, op, use, instructions)), op);
    hide FinishPrompt;
  }

  lemma SettleSets(s: State, op: OperationId, outcome: OperationState, result: Result, error: ErrorCode,
                   use: SessionState, instructions: InstructionState)
    requires op in s.records && op in s.requests && s.requests[op].session in s.sessions && outcome.Terminal()
    ensures var t := Settle(s, op, outcome, result, error, use, instructions);
      && t.records == s.records[op := s.records[op].SetTerminal(outcome, result, error)]
      && t.continuity == s.continuity
  {
    hide FinishPrompt;
    var sid := s.requests[op].session;
    var session := s.sessions[sid].(active := None, state := use, instructions := instructions);
    var settled := PopDone(s, op).(records := s.records[op := s.records[op].SetTerminal(outcome, result, error)],
                                   sessions := s.sessions[sid := session]);
    FinishLeavesRecords(settled, op, true);
    assert Settle(s, op, outcome, result, error, use, instructions) == FinishPrompt(settled, op, true);
  }

  /** When its worker sees the end of a turn, the prompt is settled as the outcome calls for, or told to stop
      because its deadline has passed, or the generation is lost and nothing is settled. It is lost exactly when
      the outcome is doubtful. A complete turn that completes although its prompt was told to stop is. */
  lemma TurnSeenLaw(s: State, op: OperationId)
    requires Inv(s) && PromptWithTurn(s, op, AwaitTurn)
    ensures
      var t, o, r := ResumeTurn(s, op), s.turns[op].phase.outcome, s.records[op];
      && (!t.continuity.Current? <==> Doubtful(o, r.state))
      && (Doubtful(o, r.state) ==> t.records == s.records && t.continuity.Draining?)
      && (o.RaisedTimeout? ==> t.records == s.records[op := r.(state := Cancelling)])
      && (o.Terminal() && !Doubtful(o, r.state) ==>
            && op in t.records && t.records == s.records[op := t.records[op]]
            && t.records[op].SameIdentity(r) && !t.records[op].state.TimedOut?
            && FitsTurn(t.records[op].state, t.records[op].result, t.records[op].error, o) && Freed(s, t, op))
  {
    UndisturbedWorker(s, op);
    hide Inv, Quarantine, SettleTerminal;
    var o := s.turns[op].phase.outcome;
    QuarantineLeavesRecords(PopDone(s, op).(lock := None), ByWorker(op), map[op := Settlement(InDoubt, NoResult, PromptInDoubt)]);
    if o.Unsettled? {
      QuarantineLeavesRecords(PopDone(s, op).(lock := None), ByWorker(op),
                              map[op := Settlement(InDoubt, RetainedEvidence(o.observation), PromptInDoubt)]);
    }
    if o.Terminal() {
      SettlementLaw(s, op, o);
    }
  }

  lemma SettlementLaw(s: State, op: OperationId, o: TurnOutcome)
    requires op in s.records && op in s.requests && s.requests[op].session in s.sessions && o.Terminal()
    requires s.continuity.Current? && (s.records[op].state.Running? || s.records[op].state.Cancelling?)
    ensures
      var t, r := SettleTerminal(s, op, o), s.records[op];
      && (!t.continuity.Current? <==> Doubtful(o, r.state))
      && (Doubtful(o, r.state) ==> t.records == s.records && t.continuity.Draining?)
      && (!Doubtful(o, r.state) ==>
            && op in t.records && t.records == s.records[op := t.records[op]]
            && t.records[op].SameIdentity(r) && !t.records[op].state.TimedOut?
            && FitsTurn(t.records[op].state, t.records[op].result, t.records[op].error, o) && Freed(s, t, op))
  {
    if Doubtful(o, s.records[op].state) {
      DoubtLaw(s, op, o);
    } else {
      CertainLaw(s, op, o);
    }
    hide SettleTerminal, FitsTurn, Freed;
  }

  lemma DoubtLaw(s: State, op: OperationId, o: TurnOutcome)
    requires op in s.records && op in s.requests && s.requests[op].session in s.sessions && o.Terminal()
    requires Doubtful(o, s.records[op].state)
    ensures SettleTerminal(s, op, o).records == s.records && SettleTerminal(s, op, o).continuity.Draining?
  {
    hide Settle, Quarantine, RecordSubmission;
    var inactive := s.(sessions := s.sessions[s.requests[op].session := s.sessions[s.requests[op].session].(active := None)]);
    QuarantineLeavesRecords(PopDone(inactive, op), ByWorker(op),
                            map[op := Settlement(InDoubt, RetainedEvidence(o.observation), CancellationStopMismatch)]);
    QuarantineLeavesRecords(PopDone(inactive, op).(lock := None), ByWorker(op),
                            map[op := Settlement(InDoubt, NoResult, PromptInDoubt)]);
  }

  /** A settlement that the outcome calls for, and the one record it changes. */
  ghost predicate SettledBy(s: State, t: State, op: OperationId, o: TurnOutcome)
    requires op in s.records
  {
    && t.continuity == s.continuity
    && op in t.records && t.records == s.records[op := t.records[op]]
    && t.records[op].SameIdentity(s.records[op]) && !t.records[op].state.TimedOut?
    && FitsTurn(t.records[op].state, t.records[op].result, t.records[op].error, o)
  }

  /** The session of a settled prompt is free, ready again only if the prompt completed, and then its instructions are
      as submitted. */
  ghost predicate Freed(s: State, t: State, op: OperationId)
    requires op in s.requests && s.requests[op].session in s.sessions && op in t.records
  {
    var before := s.sessions[s.requests[op].session].instructions;
    t.sessions == if t.records[op].state.Completed? then
                    WithSession(s, op, Ready, RecordSubmission(before, s.requests[op]))
                  else WithSession(s, op, NonReusable, before)
  }

  lemma SettleFits(s: State, op: OperationId, o: TurnOutcome, outcome: OperationState, result: Result, error: ErrorCode,
                   use: SessionState, instructions: InstructionState)
    requires op in s.records && op in s.requests && s.requests[op].session in s.sessions && !s.records[op].state.Terminal()
    requires outcome.Terminal() && !outcome.TimedOut? && FitsTurn(outcome, result, error, o) && s.continuity.Current?
    requires use == if outcome.Completed? then Ready else NonReusable
    requires var before := s.sessions[s.requests[op].session].instructions;
             instructions == if outcome.Completed? then RecordSubmission(before, s.requests[op]) else before
    ensures var t := Settle(s, op, outcome, result, error, use, instructions); SettledBy(s, t, op, o) && Freed(s, t, op)
  {
    SettleSets(s, op, outcome, result, error, use, instructions);
    SettleFrees(s, op, outcome, result, error, use, instructions);
    hide Settle, FitsTurn;
  }

  lemma CertainLaw(s: State, op: OperationId, o: TurnOutcome)
    requires op in s.records && op in s.requests && s.requests[op].session in s.sessions && o.Terminal()
    requires s.continuity.Current? && !s.records[op].state.Terminal() && !Doubtful(o, s.records[op].state)
    ensures SettledBy(s, SettleTerminal(s, op, o), op, o) && Freed(s, SettleTerminal(s, op, o), op)
  {
    hide Settle, Quarantine, RecordSubmission, SettledBy, Freed;
    var x, e := s.sessions[s.requests[op].session], o.observation;
    if !e.complete {
      SettleFits(s, op, o, Failed, RetainedEvidence(e), EvidenceLimit, NonReusable, x.instructions);
    } else if o.TurnFailed? {
      SettleFits(s, op, o, Failed, RetainedEvidence(e), NativeTurnFailed, NonReusable, x.instructions);
    } else if o.TurnCancelled? {
      SettleFits(s, op, o, Cancelled, RetainedEvidence(e), NoError, NonReusable, x.instructions);
    } else {
      SettleFits(s, op, o, Completed, PromptResult(e), NoError, Ready, RecordSubmission(x.instructions, s.requests[op]));
    }
  }

  /** What is submitted with a completed prompt: its invocation is the active one, under the contract it announced, and
      what was submitted before stays. */
  lemma SubmissionRecorded(before: InstructionState, r: PromptRequest)
    requires WellFormed(before) && PhaseAllowed(before, r)
    ensures var after := RecordSubmission(before, r);
      && after.Submitted? && after.active == r.invocation
      && (r.invocation, r.contractDigest) in after.contracts
      && (before.Submitted? ==> before.contracts <= after.contracts)
      && after.contracts == (if before.Submitted? then before.contracts else [])
                            + (if r.phase.Delta() then [] else [(r.invocation, r.contractDigest)])
  {
    if r.phase.Delta() {
      ContractForIsTheContract(before.contracts, r.invocation, r.contractDigest);
    } else {
      var after := RecordSubmission(before, r);
      assert after.contracts[|after.contracts| - 1] == (r.invocation, r.contractDigest);
    }
  }

  lemma GraceLosses(s: State, op: OperationId)
    requires PromptWithTurn(s, op, DeadlineGrace) && s.continuity.Current?
    ensures var t, o := ResumeGrace(s, op), s.turns[op].phase.outcome;
            !o.TurnCancelled? ==> t.records == s.records && t.continuity.Draining?
  {
    hide LostSessions, CancelledWorkers, CancelledTurns, Unfinished, Settle;
  }

  lemma GraceSettles(s: State, op: OperationId)
    requires PromptWithTurn(s, op, DeadlineGrace) && s.turns[op].phase.outcome.TurnCancelled?
    ensures var o := s.turns[op].phase.outcome.observation;
            ResumeGrace(s, op) == Settle(s, op, TimedOut, RetainedEvidence(o), ExecutionDeadline, NonReusable,
                                         s.sessions[s.requests[op].session].instructions)
  {
    hide Settle;
  }

  /** Within the grace after a deadline only a cancelled turn settles its prompt, and as TIMED_OUT; any other
      outcome loses the generation. */
  lemma GraceSeenLaw(s: State, op: OperationId)
    requires Inv(s) && PromptWithTurn(s, op, DeadlineGrace)
    ensures
      var t, o, r := ResumeGrace(s, op), s.turns[op].phase.outcome, s.records[op];
      && (t.continuity.Current? <==> o.TurnCancelled?)
      && (!o.TurnCancelled? ==> t.records == s.records && t.continuity.Draining?)
      && (o.TurnCancelled? ==>
            && t.records == s.records[op := r.(state := TimedOut, result := RetainedEvidence(o.observation), error := ExecutionDeadline)]
            && t.sessions == WithSession(s, op, NonReusable, s.sessions[s.requests[op].session].instructions))
  {
    UndisturbedWorker(s, op);
    hide Inv;
    GraceLosses(s, op);
    var o := s.turns[op].phase.outcome;
    if o.TurnCancelled? {
      SettleSets(s, op, TimedOut, RetainedEvidence(o.observation), ExecutionDeadline, NonReusable,
                 s.sessions[s.requests[op].session].instructions);
      SettleFrees(s, op, TimedOut, RetainedEvidence(o.observation), ExecutionDeadline, NonReusable,
                  s.sessions[s.requests[op].session].instructions);
      hide ResumeGrace;
      GraceSettles(s, op);
    }
    hide Settle, ResumeGrace;
  }

  /** The end of a native retirement: settled, it completes the operation and leaves the session retired and free;
      otherwise the generation is lost. */
  lemma RetirementLaw(s: State, op: OperationId, settled: bool, destroyed: bool)
    requires Inv(s) && ControlAt(s, op, RetireSession, AwaitRetire)
    ensures
      var t, sid := RetireFinished(s, op, settled, destroyed), s.records[op].session;
      && (t.continuity.Current? <==> settled)
      && (settled ==>
            && t.records == s.records[op := s.records[op].(state := Completed, result := SessionRetired(destroyed), error := NoError)]
            && t.sessions == s.sessions[sid := s.sessions[sid].(state := Retired, active := None)]
            && t.workers == s.workers - {op})
  {
    UndisturbedWorker(s, op);
    assert EngagedOk(s, op);
    hide Inv, Quarantine;
  }

  lemma SeenMoves(s: State, e: Event, x: OperationId)
    requires Inv(s) && Enabled(s, e) && x in s.records && (e.WorkerSeesTurn? || e.GraceSeesTurn?)
    ensures Moves(s, Next(s, e), x)
  {
    UndisturbedWorker(s, e.op);
    if e.WorkerSeesTurn? {
      TurnSeenLaw(s, e.op);
    } else {
      GraceSeenLaw(s, e.op);
    }
    hide Inv, ResumeTurn, ResumeGrace;
  }

  lemma PublishMoves(s: State, stopSettled: bool, failed: bool, x: OperationId)
    requires Inv(s) && Publishable(s) && x in s.records
    ensures Moves(s, Publish(s, stopSettled, failed), x)
  {
    var f := Publish(s, stopSettled, failed);
    PublishEffect(s, stopSettled, failed);
    assert f.records[x] == PublishedRecord(s, x, failed);
    hide Publish;
    PublishRecord(s, f, failed, x);
    assert RecordShape(s, x) && HasOwner(s, x);
    if x in s.continuity.deferred {
      assert SettlementOk(s, x);
    }
    PublishedMoves(s, failed, x);
    hide Inv;
  }

  lemma PublishedMoves(s: State, failed: bool, x: OperationId)
    requires Publishable(s) && x in s.records && HasOwner(s, x) && RecordShape(s, x)
    requires x in s.continuity.deferred ==> SettlementOk(s, x)
    ensures Edge(s.records[x].kind, s.records[x].state, PublishedRecord(s, x, failed).state)
  {
  }

  lemma UnwindMoves(s: State, op: OperationId, x: OperationId)
    requires Inv(s) && UnwindReady(s, op) && s.workers[op].cancelled && x in s.records
    ensures Moves(s, Unwind(s, op), x)
  {
    assert WorkerOk(s, op);
    UnwindEffect(s, op);
    hide Inv, Unwind;
  }

  lemma CleanupMoves(s: State, e: Event, x: OperationId)
    requires Inv(s) && Enabled(s, e) && x in s.records
    requires e.CancelledWorkerResumes? || e.GenerationLost? || e.TasksDrained? || e.DrainingCallerCancelled? || e.StopReturns?
    ensures Moves(s, Next(s, e), x)
  {
    hide Inv, Unwind, Quarantine, Publish;
    match e {
      case CancelledWorkerResumes(op) =>
        UnwindMoves(s, op, x);
      case GenerationLost =>
        QuarantineLeavesRecords(s, External, map[]);
      case TasksDrained =>
      case DrainingCallerCancelled =>
        DrainedKeeps(s);
        PublishMoves(s.(continuity := ToStopping(s.continuity)), false, false, x);
      case StopReturns(failed) =>
        PublishMoves(s, true, failed, x);
    }
  }

  lemma QuarantineLeavesRecords(s: State, owner: Owner, deferred: map<OperationId, Settlement>)
    ensures Quarantine(s, owner, deferred).records == s.records
  {
  }

  /** Every step moves every record along one edge of the life cycle, or leaves its state alone. */
  lemma StepMoves(s: State, e: Event, x: OperationId)
    requires Inv(s) && x in s.records
    ensures Moves(s, Step(s, e), x)
  {
    hide Inv, Next, Enabled;
    if Enabled(s, e) {
      if e.Create? || e.SubmitPrompt? || e.SubmitCancel? || e.SubmitRetire? {
        AdmissionMoves(s, e, x);
      } else if e.WorkerSeesTurn? || e.GraceSeesTurn? {
        SeenMoves(s, e, x);
      } else if e.CancelStarts? || e.CancelReturns? || e.CancelSeesTarget? || e.CancelGracePasses?
                || e.RetireStarts? || e.RetireReturns? {
        ControlMoves(s, e, x);
      } else if e.CancelledWorkerResumes? || e.GenerationLost? || e.TasksDrained? || e.DrainingCallerCancelled?
                || e.StopReturns? {
        CleanupMoves(s, e, x);
      } else {
        TaskMoves(s, e, x);
      }
    }
  }

  /** The life cycle over every run. */
  lemma {:induction false} RunMoves(s: State, events: seq<Event>, x: OperationId)
    requires Inv(s) && x in s.records
    ensures var t := Run(s, events);
      && x in t.records && t.records[x].kind == s.records[x].kind
      && MayBecome(s.records[x].kind, s.records[x].state, t.records[x].state)
    decreases |events|
  {
    if events != [] {
      StepKeeps(s, events[0]);
      StepMoves(s, events[0], x);
      hide Inv, Step;
      RunMoves(Step(s, events[0]), events[1..], x);
    }
  }

  /** A prompt that was told to stop never ends as completed, whatever happens afterwards. */
  lemma StoppedPromptsNeverComplete(limits: Limits, events: seq<Event>, later: seq<Event>, op: OperationId)
    requires op in Run(Init(limits), events).records
    requires Run(Init(limits), events).records[op].kind.Prompt?
    requires Run(Init(limits), events).records[op].state.Cancelling?
    ensures op in Run(Init(limits), events + later).records
    ensures !Run(Init(limits), events + later).records[op].state.Completed?
  {
    Reachable(limits, events);
    RunMoves(Run(Init(limits), events), later, op);
    RunAppends(Init(limits), events, later);
  }

  // ---------------------------------------------------------------- the loss

  /** The steps that lose the generation: a loss from outside, a stop that could not be sent or was not
      acknowledged in time, a turn that leaves its prompt's outcome unknown, and a retirement that did not
      settle. */
  predicate Loses(s: State, e: Event)
    requires Enabled(s, e)
  {
    match e
    case GenerationLost => true
    case WorkerSeesTurn(op) => Doubtful(s.turns[op].phase.outcome, s.records[op].state)
    case GraceSeesTurn(op) => !s.turns[op].phase.outcome.TurnCancelled?
    case GracePasses(_) => true
    case CancelGracePasses(_) => true
    case DeadlineCancelReturns(_, sent) => !sent
    case CancelReturns(_, sent) => !sent
    case RetireReturns(_, settled, _) => !settled
    case _ => false
  }

  /** The operations whose settlement the step itself decides: the one whose worker it is and, for a
      cancellation, its target. */
  function Decided(s: State, e: Event): set<OperationId>
    requires Enabled(s, e)
  {
    match e
    case WorkerSeesTurn(op) => {op}
    case GraceSeesTurn(op) => {op}
    case GracePasses(op) => {op}
    case DeadlineCancelReturns(op, _) => {op}
    case RetireReturns(op, _, _) => {op}
    case CancelReturns(op, _) => {op, s.records[op].target.value}
    case CancelGracePasses(op) => {op, s.records[op].target.value}
    case _ => {}
  }

  /** What a loss leaves behind: nothing settled, every unsettled record owned by the quarantining call, in one
      of its two lists, and every session lost unless it was retired. */
  ghost predicate LostFrom(s: State, t: State, owner: Owner, decided: set<OperationId>) {
    && t.continuity.Draining? && t.continuity.owner == owner && t.records == s.records
    && t.continuity.deferred.Keys == decided
    && t.continuity.doomed == (set x | x in s.records && !s.records[x].state.Terminal()) - decided
    && t.continuity.held <= s.tracked && t.tracked == {}
    && t.sessions.Keys == s.sessions.Keys
    && (forall sid | sid in s.sessions ::
          t.sessions[sid].state.Lost? || (s.sessions[sid].state.Retired? && t.sessions[sid].state.Retired?))
  }

  lemma QuarantineLoses(s: State, s1: State, owner: Owner, deferred: map<OperationId, Settlement>)
    requires s1.records == s.records && s1.sessions.Keys == s.sessions.Keys && s1.tracked <= s.tracked
    requires forall sid | sid in s.sessions :: s1.sessions[sid].state.Retired? ==> s.sessions[sid].state.Retired?
    ensures LostFrom(s, Quarantine(s1, owner, deferred), owner, deferred.Keys)
  {
  }

  /** The generation is lost by exactly those steps. */
  lemma LossIsExact(s: State, e: Event)
    requires Inv(s) && Enabled(s, e) && s.continuity.Current?
    ensures !Next(s, e).continuity.Current? <==> Loses(s, e)
  {
    if e.WorkerSeesTurn? {
      TurnSeenLaw(s, e.op);
      hide Inv, ResumeTurn, Doubtful;
    } else if e.GraceSeesTurn? {
      GraceSeenLaw(s, e.op);
      hide Inv, ResumeGrace;
    } else {
      hide Inv, Doubtful;
      OtherLosses(s, e);
    }
  }

  lemma OtherLosses(s: State, e: Event)
    requires Enabled(s, e) && s.continuity.Current? && !e.WorkerSeesTurn? && !e.GraceSeesTurn?
    ensures !Next(s, e).continuity.Current? <==> Loses(s, e)
  {
    hide AdmitCreate, AdmitPrompt, AdmitCancel, AdmitRetire, EnterPrompt, Quarantine,
         FinishRetire, Unwind, Publish, MarkNonReusable, ReachDeadline, StartControl, TargetDone;
  }

  lemma AbandonLoses(s: State, sessions: map<SessionId, Session>, op: OperationId, result: Result, error: ErrorCode)
    requires sessions.Keys == s.sessions.Keys
    requires forall sid | sid in s.sessions :: sessions[sid].state.Retired? ==> s.sessions[sid].state.Retired?
    ensures LostFrom(s, AbandonPrompt(s.(sessions := sessions), op, result, error), ByWorker(op), {op})
  {
    var deferred := map[op := Settlement(InDoubt, result, error)];
    hide Quarantine, LostFrom;
    QuarantineLoses(s, PopDone(s.(sessions := sessions), op).(lock := None), ByWorker(op), deferred);
    assert deferred.Keys == {op};
  }

  lemma DoubtLoses(s: State, op: OperationId)
    requires PromptWithTurn(s, op, AwaitTurn) && Doubtful(s.turns[op].phase.outcome, s.records[op].state)
    ensures LostFrom(s, ResumeTurn(s, op), ByWorker(op), {op})
  {
    var o, sid := s.turns[op].phase.outcome, s.requests[op].session;
    hide Quarantine, AbandonPrompt, LostFrom, Settle;
    assert s.(sessions := s.sessions) == s;
    if o.Unsettled? {
      AbandonLoses(s, s.sessions, op, RetainedEvidence(o.observation), PromptInDoubt);
    } else if o.RaisedOther? {
      AbandonLoses(s, s.sessions, op, NoResult, PromptInDoubt);
    } else {
      var inactive := s.(sessions := s.sessions[sid := s.sessions[sid].(active := None)]);
      AbandonLoses(s, inactive.sessions, op, NoResult, PromptInDoubt);
      var deferred := map[op := Settlement(InDoubt, RetainedEvidence(o.observation), CancellationStopMismatch)];
      QuarantineLoses(s, PopDone(inactive, op), ByWorker(op), deferred);
      assert deferred.Keys == {op};
    }
  }

  lemma DeadlineLoses(s: State, e: Event)
    requires Enabled(s, e) && Loses(s, e) && (e.DeadlineCancelReturns? || e.GraceSeesTurn? || e.GracePasses?)
    ensures LostFrom(s, Next(s, e), ByWorker(e.op), {e.op})
  {
    hide Quarantine, AbandonPrompt, LostFrom, Settle;
    var op := e.op;
    assert s.(sessions := s.sessions) == s;
    AbandonLoses(s, s.sessions, op, NoResult, PromptInDoubt);
    QuarantineLoses(s, s, ByWorker(op), map[op := Settlement(InDoubt, NoResult, DeadlineSettlementUnknown)]);
    assert map[op := Settlement(InDoubt, NoResult, DeadlineSettlementUnknown)].Keys == {op};
    if e.GraceSeesTurn? {
      var o := s.turns[op].phase.outcome;
      if o.Unsettled? {
        AbandonLoses(s, s.sessions, op, RetainedEvidence(o.observation), PromptInDoubt);
      } else if o.Terminal() {
        var deferred := map[op := Settlement(InDoubt, RetainedEvidence(o.observation), DeadlineStopMismatch)];
        QuarantineLoses(s, s, ByWorker(op), deferred);
        assert deferred.Keys == {op};
      }
    }
  }

  lemma ControlLoses(s: State, e: Event)
    requires Enabled(s, e) && Loses(s, e) && (e.CancelReturns? || e.CancelGracePasses? || e.RetireReturns?)
    ensures LostFrom(s, Next(s, e), ByWorker(e.op), Decided(s, e))
  {
    hide Quarantine;
    var op := e.op;
    if e.RetireReturns? {
      QuarantineLoses(s, s, ByWorker(op), map[op := Settlement(InDoubt, NoResult, RetirementInDoubt)]);
      assert map[op := Settlement(InDoubt, NoResult, RetirementInDoubt)].Keys == {op};
    } else {
      var target, s1 := s.records[op].target.value, MarkNonReusable(s, s.records[op].session);
      var failed := map[target := Settlement(InDoubt, NoResult, CancelTransportFailed),
                        op := Settlement(Failed, NoResult, CancelFailed)];
      var expired := map[target := Settlement(InDoubt, NoResult, CancellationSettlementUnknown),
                         op := Settlement(Completed, CancelReceipt(InDoubt, true), NoError)];
      QuarantineLoses(s, s1, ByWorker(op), failed);
      QuarantineLoses(s, s1, ByWorker(op), expired);
      assert failed.Keys == {op, target} && expired.Keys == {op, target};
    }
  }

  /** And each leaves this behind. */
  lemma LossLaw(s: State, e: Event)
    requires Inv(s) && Enabled(s, e) && s.continuity.Current? && Loses(s, e)
    ensures LostFrom(s, Next(s, e), if e.GenerationLost? then External else ByWorker(e.op), Decided(s, e))
  {
    hide Inv, LostFrom, Quarantine;
    if e.GenerationLost? {
      var none: map<OperationId, Settlement> := map[];
      QuarantineLoses(s, s, External, none);
      assert none.Keys == {};
    } else if e.WorkerSeesTurn? {
      DoubtLoses(s, e.op);
    } else if e.CancelReturns? || e.CancelGracePasses? || e.RetireReturns? {
      ControlLoses(s, e);
    } else {
      DeadlineLoses(s, e);
    }
  }

  // ---------------------------------------------------------------- settlement and stop

  /** A cancellation that is accepted now. */
  predicate Accepts(s: State, e: Event) {
    e.SubmitCancel? && AdmitCancel(s, e.cancel, e.alive).1 == Operation(e.cancel.op, true)
  }

  /** While continuity holds a prompt is settled by the end of its turn, as seen by its own worker, or by a
      cancellation accepted before it was dispatched; nothing else settles it. */
  predicate Settles(s: State, e: Event, x: OperationId)
    requires Enabled(s, e) && x in s.records
  {
    || (e == WorkerSeesTurn(x) && s.turns[x].phase.outcome.Terminal() && !Doubtful(s.turns[x].phase.outcome, s.records[x].state))
    || (e == GraceSeesTurn(x) && s.turns[x].phase.outcome.TurnCancelled?)
    || (Accepts(s, e) && e.cancel.target == x && (s.records[x].state.Accepted? || s.records[x].state.Queued?))
  }

  /** It is told to stop by its deadline or by a cancellation accepted afterwards. */
  predicate TellsToStop(s: State, e: Event, x: OperationId)
    requires Enabled(s, e) && x in s.records
  {
    || e == DeadlinePasses(x)
    || (e == WorkerSeesTurn(x) && s.turns[x].phase.outcome.RaisedTimeout?)
    || (Accepts(s, e) && e.cancel.target == x && s.records[x].state.Running?)
  }

  /** It is dispatched when its worker finds the lock free and nobody waiting before it. */
  predicate Dispatches(s: State, e: Event, x: OperationId) {
    && e == Enter(x) && s.lock.None?
    && !(x in s.workers && s.workers[x].at.Scheduled?
         && exists o | o in s.workers :: o != x && s.workers[o] == Worker(AwaitLock, false))
  }

  /** What a step makes of an unsettled prompt. */
  ghost predicate Becomes(s: State, t: State, e: Event, x: OperationId)
    requires Enabled(s, e) && x in s.records && x in t.records
  {
    var a, b := s.records[x].state, t.records[x].state;
    && (b.Terminal() <==> Settles(s, e, x))
    && (b.TimedOut? <==> e == GraceSeesTurn(x) && Settles(s, e, x))
    && (t.records[x].result.CancelledPreDispatch? && b.Terminal() <==> e.SubmitCancel? && Settles(s, e, x))
    && (b.Cancelling? <==> (a.Cancelling? && !b.Terminal()) || TellsToStop(s, e, x))
    && (b.Running? && !a.Running? <==> Dispatches(s, e, x))
  }

  lemma LeftAlone(s: State, t: State, e: Event, x: OperationId)
    requires Enabled(s, e) && x in s.records && x in t.records && t.records[x] == s.records[x]
    requires !s.records[x].state.Terminal() && !Settles(s, e, x) && !Dispatches(s, e, x)
    requires TellsToStop(s, e, x) ==> s.records[x].state.Cancelling?
    ensures Becomes(s, t, e, x)
  {
    hide Settles, TellsToStop, Dispatches, Enabled;
  }

  /** The steps of other tasks settle, stop and dispatch no prompt. */
  lemma NotItsStep(s: State, e: Event, x: OperationId)
    requires Enabled(s, e) && x in s.records
    requires !e.SubmitCancel?
    requires (e.WorkerSeesTurn? || e.GraceSeesTurn? || e.DeadlinePasses? || e.Enter?) ==> e.op != x
    ensures !Settles(s, e, x) && !TellsToStop(s, e, x) && !Dispatches(s, e, x)
  {
    hide Enabled;
  }

  lemma SeenBecomes(s: State, e: Event, x: OperationId)
    requires Inv(s) && Enabled(s, e) && (e.WorkerSeesTurn? || e.GraceSeesTurn?)
    requires x in s.requests && x in s.records && !s.records[x].state.Terminal()
    ensures x in Next(s, e).records && Becomes(s, Next(s, e), e, x)
  {
    if e.WorkerSeesTurn? {
      TurnSeenLaw(s, e.op);
    } else {
      GraceSeenLaw(s, e.op);
    }
    if e.op != x {
      NotItsStep(s, e, x);
      hide Inv, ResumeTurn, ResumeGrace, Becomes, Settles, TellsToStop, Dispatches;
      LeftAlone(s, Next(s, e), e, x);
    } else {
      hide Inv, FitsTurn;
      OwnTurnBecomes(s, e);
    }
  }

  lemma OwnTurnBecomes(s: State, e: Event)
    requires Inv(s) && Enabled(s, e) && (e.WorkerSeesTurn? || e.GraceSeesTurn?) && !s.records[e.op].state.Terminal()
    ensures e.op in Next(s, e).records && Becomes(s, Next(s, e), e, e.op)
  {
    hide FitsTurn, Becomes;
    UndisturbedWorker(s, e.op);
    if e.WorkerSeesTurn? {
      TurnSeenLaw(s, e.op);
      hide Inv, ResumeTurn;
      OwnSeen(s, ResumeTurn(s, e.op), e.op);
    } else {
      GraceSeenLaw(s, e.op);
      hide Inv, ResumeGrace;
      OwnGrace(s, ResumeGrace(s, e.op), e.op);
    }
  }

  lemma OwnGrace(s: State, t: State, op: OperationId)
    requires PromptWithTurn(s, op, DeadlineGrace) && s.records[op].state.Cancelling?
    requires
      var o, r := s.turns[op].phase.outcome, s.records[op];
      t.records == if o.TurnCancelled? then
                     s.records[op := r.(state := TimedOut, result := RetainedEvidence(o.observation), error := ExecutionDeadline)]
                   else s.records
    ensures op in t.records && Becomes(s, t, GraceSeesTurn(op), op)
  {
  }

  lemma OwnSeen(s: State, t: State, op: OperationId)
    requires PromptWithTurn(s, op, AwaitTurn) && (s.records[op].state.Running? || s.records[op].state.Cancelling?)
    requires
      var o, r := s.turns[op].phase.outcome, s.records[op];
      && (Doubtful(o, r.state) ==> t.records == s.records)
      && (o.RaisedTimeout? ==> t.records == s.records[op := r.(state := Cancelling)])
      && (o.Terminal() && !Doubtful(o, r.state) ==>
            && op in t.records && !t.records[op].state.TimedOut?
            && FitsTurn(t.records[op].state, t.records[op].result, t.records[op].error, o))
    ensures op in t.records && Becomes(s, t, WorkerSeesTurn(op), op)
  {
  }

  lemma EnterSets(s: State, op: OperationId)
    requires PromptAt(s, op, Scheduled) || PromptAt(s, op, AwaitLock)
    ensures EnterPrompt(s, op).records ==
              if Dispatches(s, Enter(op), op) && !s.records[op].state.Terminal() then
                s.records[op := s.records[op].(state := OperationState.Running)]
              else s.records
  {
    FinishLeavesRecords(s, op, false);
    hide FinishPrompt;
  }

  lemma EnterBecomes(s: State, op: OperationId, x: OperationId)
    requires Inv(s) && Enabled(s, Enter(op)) && x in s.records && !s.records[x].state.Terminal()
    ensures x in EnterPrompt(s, op).records && Becomes(s, EnterPrompt(s, op), Enter(op), x)
  {
    UndisturbedWorker(s, op);
    EnterSets(s, op);
    hide Inv, EnterPrompt, MustWait;
    if op != x {
      NotItsStep(s, Enter(op), x);
      hide Becomes, Settles, TellsToStop, Dispatches;
      LeftAlone(s, EnterPrompt(s, op), Enter(op), x);
    } else {
      hide Dispatches;
    }
  }

  lemma DeadlineBecomes(s: State, op: OperationId, x: OperationId)
    requires Inv(s) && Enabled(s, DeadlinePasses(op)) && x in s.records && !s.records[x].state.Terminal()
    ensures x in ReachDeadline(s, op).records && Becomes(s, ReachDeadline(s, op), DeadlinePasses(op), x)
  {
    UndisturbedWorker(s, op);
    hide Inv;
    if op != x {
      NotItsStep(s, DeadlinePasses(op), x);
      hide Becomes, Settles, TellsToStop, Dispatches;
      LeftAlone(s, ReachDeadline(s, op), DeadlinePasses(op), x);
    }
  }

  /** Steps that leave every record as it is. */
  lemma RecordsStay(s: State, e: Event)
    requires Enabled(s, e)
    requires e.TurnStarts? || e.TurnEnds? || e.DeadlineCancelReturns? || e.GracePasses? || e.GenerationLost?
    ensures Next(s, e).records == s.records
  {
    hide Quarantine;
    if e.GenerationLost? {
      QuarantineLeavesRecords(s, External, map[]);
    } else {
      QuarantineLeavesRecords(s, ByWorker(e.op), map[e.op := Settlement(InDoubt, NoResult, DeadlineSettlementUnknown)]);
      QuarantineLeavesRecords(PopDone(s, e.op).(lock := None), ByWorker(e.op),
                              map[e.op := Settlement(InDoubt, NoResult, PromptInDoubt)]);
    }
  }

  lemma TaskBecomes(s: State, e: Event, x: OperationId)
    requires Inv(s) && Enabled(s, e) && x in s.records && !s.records[x].state.Terminal()
    requires e.Enter? || e.TurnStarts? || e.TurnEnds? || e.DeadlinePasses? || e.DeadlineCancelReturns?
          || e.GracePasses? || e.GenerationLost?
    ensures x in Next(s, e).records && Becomes(s, Next(s, e), e, x)
  {
    hide Inv, EnterPrompt, ReachDeadline, Becomes, Settles, TellsToStop, Dispatches;
    if e.Enter? {
      EnterBecomes(s, e.op, x);
    } else if e.DeadlinePasses? {
      DeadlineBecomes(s, e.op, x);
    } else {
      RecordsStay(s, e);
      NotItsStep(s, e, x);
      hide Next, Enabled;
      LeftAlone(s, Next(s, e), e, x);
    }
  }

  lemma ControlBecomes(s: State, e: Event, x: OperationId)
    requires Inv(s) && Enabled(s, e)
    requires e.CancelStarts? || e.CancelReturns? || e.CancelSeesTarget? || e.CancelGracePasses?
          || e.RetireStarts? || e.RetireReturns?
    requires x in s.requests && x in s.records && !s.records[x].state.Terminal()
    ensures x in Next(s, e).records && Becomes(s, Next(s, e), e, x)
  {
    assert RecordShape(s, x);
    hide Inv, Next, Enabled, Becomes, Settles, TellsToStop, Dispatches;
    ControlRecords(s, e);
    ControlState(s, e);
    NotItsStep(s, e, x);
    LeftAlone(s, Next(s, e), e, x);
  }

  lemma AdmissionBecomes(s: State, e: Event, x: OperationId)
    requires Inv(s) && Enabled(s, e) && (e.Create? || e.SubmitPrompt? || e.SubmitCancel? || e.SubmitRetire?)
    requires x in s.requests && x in s.records && !s.records[x].state.Terminal()
    ensures x in Next(s, e).records && Becomes(s, Next(s, e), e, x)
  {
    hide Inv, AdmitCreate, AdmitPrompt, AdmitRetire, AdmitCancel, Becomes, Settles, TellsToStop, Dispatches;
    if e.SubmitCancel? {
      CancellationBecomes(s, e.cancel, e.alive, x);
    } else {
      match e {
        case Create(r, alive, allocates) => CreationLeaves(s, r, alive, allocates, x);
        case SubmitPrompt(r, alive) => SubmissionLeaves(s, r, alive, x);
        case SubmitRetire(r, alive) => RetirementLeaves(s, r, alive, x);
      }
      NotItsStep(s, e, x);
      LeftAlone(s, Next(s, e), e, x);
    }
  }

  lemma CancellationBecomes(s: State, r: CancelCall, alive: bool, x: OperationId)
    requires Inv(s) && x in s.requests && x in s.records && !s.records[x].state.Terminal()
    ensures var t := AdmitCancel(s, r, alive).0; x in t.records && Becomes(s, t, SubmitCancel(r, alive), x)
  {
    CancellationTouches(s, r, alive, x);
    hide Inv, AdmitCancel;
  }

  lemma CreationLeaves(s: State, r: CreateRequest, alive: bool, allocates: bool, x: OperationId)
    requires x in s.records
    ensures x in AdmitCreate(s, r, alive, allocates).0.records
    ensures AdmitCreate(s, r, alive, allocates).0.records[x] == s.records[x]
  {
  }

  lemma SubmissionLeaves(s: State, r: PromptRequest, alive: bool, x: OperationId)
    requires x in s.records
    ensures x in AdmitPrompt(s, r, alive).0.records && AdmitPrompt(s, r, alive).0.records[x] == s.records[x]
  {
    hide LifetimeValid;
  }

  lemma RetirementLeaves(s: State, r: RetireCall, alive: bool, x: OperationId)
    requires x in s.records
    ensures x in AdmitRetire(s, r, alive).0.records && AdmitRetire(s, r, alive).0.records[x] == s.records[x]
  {
  }

  /** A cancellation touches its target only: one not yet dispatched is cancelled on the spot, a running one is
      told to stop. */
  lemma CancellationTouches(s: State, r: CancelCall, alive: bool, x: OperationId)
    requires Shape(s) && x in s.records
    ensures
      var t, accepted := AdmitCancel(s, r, alive).0, AdmitCancel(s, r, alive).1 == Operation(r.op, true);
      && x in t.records
      && t.records[x] ==
           if !accepted || r.target != x || s.records[x].state.Terminal() then s.records[x]
           else if s.records[x].state.Accepted? || s.records[x].state.Queued? then
             s.records[x].(state := Cancelled, result := CancelledPreDispatch, error := NoError)
           else s.records[x].(state := Cancelling)
  {
    if r.target in s.records {
      assert RecordShape(s, r.target);
      TouchSets(s, r.target);
    }
    hide Shape, TouchTarget;
  }

  /** An accepted cancellation of a running prompt goes on in a worker of its own; any other is complete at once, and
      says how its target ended. */
  lemma CancellationAnswers(s: State, r: CancelCall, alive: bool)
    requires Shape(s) && AdmitCancel(s, r, alive).1 == Operation(r.op, true)
    ensures
      var t, target := AdmitCancel(s, r, alive).0, s.records[r.target].state;
      && r.op in t.records && t.records[r.op].kind.CancelRequest? && t.records[r.op].target == Some(r.target)
      && if target.Running? || target.Cancelling? then
           t.records[r.op].state.Accepted? && r.op in t.workers && t.workers[r.op] == Worker(Scheduled, false)
         else
           && t.records[r.op].state.Completed?
           && t.records[r.op].result == CancelReceipt(if target.Terminal() then target else Cancelled, false)
  {
    assert RecordShape(s, r.target);
    TouchSets(s, r.target);
    hide Shape, TouchTarget;
  }

  lemma TouchSets(s: State, target: OperationId)
    requires target in s.records && s.records[target].session in s.sessions
    ensures
      var r := s.records[target];
      TouchTarget(s, target).records == s.records[target :=
        if r.state.Terminal() then r
        else if r.state.Accepted? || r.state.Queued? then
          r.(state := Cancelled, result := CancelledPreDispatch, error := NoError)
        else r.(state := Cancelling)]
  {
  }

  /** While continuity holds, exactly these steps settle, stop and dispatch a prompt. */
  lemma PromptsChangeExactly(s: State, e: Event, x: OperationId)
    requires Inv(s) && Enabled(s, e) && s.continuity.Current?
    requires x in s.requests && x in s.records && !s.records[x].state.Terminal()
    ensures x in Next(s, e).records && Becomes(s, Next(s, e), e, x)
  {
    hide Inv, Becomes, Next, Enabled;
    if e.Create? || e.SubmitPrompt? || e.SubmitCancel? || e.SubmitRetire? {
      AdmissionBecomes(s, e, x);
    } else if e.WorkerSeesTurn? || e.GraceSeesTurn? {
      SeenBecomes(s, e, x);
    } else if e.CancelStarts? || e.CancelReturns? || e.CancelSeesTarget? || e.CancelGracePasses?
              || e.RetireStarts? || e.RetireReturns? {
      ControlBecomes(s, e, x);
    } else {
      NoCleanupYet(s, e);
      TaskBecomes(s, e, x);
    }
  }

  /** While continuity holds nobody is cancelled, so no cleanup runs. */
  lemma NobodyIsCancelled(s: State, op: OperationId)
    requires Inv(s) && s.continuity.Current? && op in s.workers
    ensures !s.workers[op].cancelled
  {
    assert WorkerOk(s, op);
  }

  lemma NoCleanupYet(s: State, e: Event)
    requires Inv(s) && Enabled(s, e) && s.continuity.Current?
    ensures !e.CancelledWorkerResumes? && !e.TasksDrained? && !e.DrainingCallerCancelled? && !e.StopReturns?
  {
    forall op | op in s.workers
      ensures !s.workers[op].cancelled
    {
      NobodyIsCancelled(s, op);
    }
    hide Inv;
  }
}
