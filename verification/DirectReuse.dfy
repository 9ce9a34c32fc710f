/** Which sessions take another prompt: only those whose every earlier prompt is settled beyond doubt. */
module DirectReuse {
  import opened Basics
  import opened DirectState
  import opened DirectProtocol
  import opened DirectInvariants
  import opened DirectSteps
  import opened DirectTheorems

  predicate Usable(s: State, sid: SessionId) {
    sid in s.sessions && (s.sessions[sid].state.Ready? || s.sessions[sid].state.Busy?)
  }

  /** A prompt that leaves its session as it was: completed, or cancelled before dispatch. */
  predicate Harmless(r: Record) {
    r.state.Completed? || r.result.CancelledPreDispatch?
  }

  ghost predicate CleanAt(s: State, op: OperationId) {
    op in s.requests && op in s.records && s.records[op].state.Terminal() && Usable(s, s.requests[op].session) ==>
      Harmless(s.records[op])
  }

  ghost predicate Clean(s: State) {
    s.continuity.Current? ==> forall op {:trigger CleanAt(s, op)} :: CleanAt(s, op)
  }

  /** A step that makes no old session usable again, and settles prompts of usable sessions harmlessly. */
  ghost predicate Tidy(s: State, t: State) {
    t.continuity.Current? ==>
      && s.continuity.Current?
      && (forall sid :: Usable(t, sid) && sid in s.sessions ==> Usable(s, sid))
      && (forall op {:trigger TidyAt(s, t, op)} :: TidyAt(s, t, op))
  }

  ghost predicate TidyAt(s: State, t: State, op: OperationId) {
    op in t.requests && op in t.records && t.records[op].state.Terminal() ==>
      || (op in s.requests && op in s.records && t.records[op] == s.records[op] && t.requests[op] == s.requests[op])
      || CleanAt(t, op)
  }

  lemma TidyStepsStayClean(s: State, t: State)
    requires Inv(s) && Clean(s) && Tidy(s, t)
    ensures Clean(t)
  {
    if t.continuity.Current? {
      forall op
        ensures CleanAt(t, op)
      {
        assert TidyAt(s, t, op) && CleanAt(s, op);
        if op in s.requests {
          assert RecordShape(s, op);
        }
      }
    }
  }

  // ---------------------------------------------------------------- admission

  lemma CreationIsTidy(s: State, r: CreateRequest, alive: bool, allocates: bool)
    requires Inv(s)
    ensures Tidy(s, AdmitCreate(s, r, alive, allocates).0)
  {
    assert r.op in s.requests ==> r.op in s.records;
  }

  lemma PromptIsTidy(s: State, r: PromptRequest, alive: bool)
    requires Inv(s)
    ensures Tidy(s, AdmitPrompt(s, r, alive).0)
  {
    hide LifetimeValid, Inv;
  }

  lemma RetirementIsTidy(s: State, r: RetireCall, alive: bool)
    requires Inv(s)
    ensures Tidy(s, AdmitRetire(s, r, alive).0)
  {
    assert s.requests.Keys <= s.records.Keys;
    hide Inv, Tidy, AdmitRetire;
    AddedRetirementIsTidy(s, r, alive);
  }

  lemma AddedRetirementIsTidy(s: State, r: RetireCall, alive: bool)
    requires s.requests.Keys <= s.records.Keys
    ensures Tidy(s, AdmitRetire(s, r, alive).0)
  {
  }

  lemma TouchedIsTidy(s: State, target: OperationId)
    requires s.continuity.Current? && target in s.records && target in s.requests
    requires s.requests[target].session == s.records[target].session
    requires s.records[target].state.Terminal() || Usable(s, s.records[target].session)
    ensures Tidy(s, TouchTarget(s, target))
  {
  }

  lemma TouchIsTidy(s: State, target: OperationId)
    requires Inv(s) && s.continuity.Current? && target in s.records && target in s.requests
    ensures Tidy(s, TouchTarget(s, target))
  {
    assert RecordShape(s, target) && EngagedOk(s, target) && SessionOk(s, s.records[target].session);
    hide TouchTarget, Tidy, Inv;
    TouchedIsTidy(s, target);
  }

  lemma CancellationIsTidy(s: State, r: CancelCall, alive: bool)
    requires Inv(s)
    ensures Tidy(s, AdmitCancel(s, r, alive).0)
  {
    var t := AdmitCancel(s, r, alive).0;
    if t != s {
      CancelForm(s, r, alive);
      assert r.op !in s.requests;
      hide AdmitCancel, TouchTarget, Inv, Tidy;
      TouchIsTidy(s, r.target);
      TouchFrame(s, r.target);
      AddedIsTidy(s, TouchTarget(s, r.target), t, r.op);
    } else {
      NothingIsTidy(s);
    }
  }

  lemma NothingIsTidy(s: State)
    ensures Tidy(s, s)
  {
  }

  /** A cancellation's own record is no prompt's. */
  lemma AddedIsTidy(s: State, touched: State, t: State, op: OperationId)
    requires Tidy(s, touched) && touched.continuity == t.continuity && t.sessions == touched.sessions
    requires t.requests == touched.requests && op !in t.requests
    requires forall o :: o != op && o in t.records ==> o in touched.records && t.records[o] == touched.records[o]
    ensures Tidy(s, t)
  {
    forall o
      ensures t.continuity.Current? ==> TidyAt(s, t, o)
    {
      assert touched.continuity.Current? ==> TidyAt(s, touched, o);
    }
  }

  // ---------------------------------------------------------------- tasks

  lemma EnterIsTidy(s: State, op: OperationId)
    requires Inv(s) && (PromptAt(s, op, Scheduled) || PromptAt(s, op, AwaitLock))
    ensures Tidy(s, EnterPrompt(s, op))
  {
    if !MustWait(s, op) && s.records[op].state.Terminal() {
      LateDrainTouchesNothing(s, op);
    }
    hide FinishPrompt, Inv;
  }

  /** What is settled in a session that was in use leaves it usable only by completing. */
  lemma SettledIsTidy(s: State, op: OperationId, outcome: OperationState, result: Result, error: ErrorCode,
                      use: SessionState, instructions: InstructionState)
    requires s.continuity.Current? && op in s.records && op in s.requests && s.records[op].session in s.sessions
    requires s.requests[op].session == s.records[op].session && Usable(s, s.records[op].session)
    requires use.NonReusable? || (outcome.Completed? && !s.records[op].state.Terminal())
    ensures Tidy(s, Settled(s, op, outcome, result, error, use, instructions))
  {
  }

  lemma SettleIsTidy(s: State, op: OperationId, outcome: OperationState, result: Result, error: ErrorCode,
                     use: SessionState, instructions: InstructionState)
    requires Inv(s) && (PromptAt(s, op, AwaitTurn) || PromptAt(s, op, DeadlineGrace))
    requires SettleAllowed(s, op, outcome, result, error, use, instructions)
    ensures Tidy(s, Settle(s, op, outcome, result, error, use, instructions))
  {
    UndisturbedWorker(s, op);
    assert ReleasedOk(s, op) && EngagedOk(s, op) && SessionOk(s, s.records[op].session);
    hide Settle, Settled, Inv, Tidy, FitsTurn;
    SettleIs(s, op, outcome, result, error, use, instructions);
    SettledIsTidy(s, op, outcome, result, error, use, instructions);
  }

  lemma RetireFinishedIsTidy(s: State, op: OperationId, destroyed: bool)
    requires Inv(s) && ControlAt(s, op, RetireSession, AwaitRetire)
    ensures Tidy(s, RetireFinished(s, op, true, destroyed))
  {
    UndisturbedWorker(s, op);
    assert RecordShape(s, op);
    hide Inv;
  }

  lemma TerminalIsTidy(s: State, op: OperationId)
    requires Inv(s) && PromptWithTurn(s, op, AwaitTurn) && s.turns[op].phase.outcome.Terminal()
    ensures Tidy(s, SettleTerminal(s, op, s.turns[op].phase.outcome))
  {
    UndisturbedWorker(s, op);
    hide Inv;
    var outcome, x := s.turns[op].phase.outcome, s.sessions[s.requests[op].session];
    var o := outcome.observation;
    if !o.complete {
      SettleIsTidy(s, op, Failed, RetainedEvidence(o), EvidenceLimit, NonReusable, x.instructions);
      hide Tidy;
    } else if outcome.TurnFailed? {
      SettleIsTidy(s, op, Failed, RetainedEvidence(o), NativeTurnFailed, NonReusable, x.instructions);
      hide Tidy;
    } else if outcome.TurnCancelled? {
      SettleIsTidy(s, op, Cancelled, RetainedEvidence(o), NoError, NonReusable, x.instructions);
      hide Tidy;
    } else if !s.records[op].state.Cancelling? && outcome.bindingMatches {
      SettleIsTidy(s, op, Completed, PromptResult(o), NoError, Ready, RecordSubmission(x.instructions, s.requests[op]));
      hide Tidy;
    }
    hide Settle, Quarantine, AbandonPrompt, RecordSubmission;
  }

  lemma TurnSeenIsTidy(s: State, op: OperationId)
    requires Inv(s) && PromptWithTurn(s, op, AwaitTurn)
    ensures Tidy(s, ResumeTurn(s, op))
  {
    UndisturbedWorker(s, op);
    hide Inv, Tidy, SettleTerminal, AbandonPrompt, ReachDeadline;
    var outcome := s.turns[op].phase.outcome;
    if outcome.Terminal() {
      TerminalIsTidy(s, op);
    } else if outcome.RaisedTimeout? {
      DeadlineIsTidy(s, op);
    } else {
      LossIsTidy(s, ResumeTurn(s, op));
    }
  }

  lemma DeadlineIsTidy(s: State, op: OperationId)
    requires s.continuity.Current? && op in s.records
    ensures Tidy(s, ReachDeadline(s, op))
  {
  }

  lemma GraceSeenIsTidy(s: State, op: OperationId)
    requires Inv(s) && PromptWithTurn(s, op, DeadlineGrace)
    ensures Tidy(s, ResumeGrace(s, op))
  {
    UndisturbedWorker(s, op);
    var outcome, x := s.turns[op].phase.outcome, s.sessions[s.requests[op].session];
    if outcome.TurnCancelled? {
      SettleIsTidy(s, op, TimedOut, RetainedEvidence(outcome.observation), ExecutionDeadline, NonReusable, x.instructions);
    }
    hide Settle, Inv, Quarantine, AbandonPrompt;
  }

  lemma TurnIsTidy(s: State, e: Event)
    requires Enabled(s, e) && (e.TurnStarts? || e.TurnEnds?)
    ensures Tidy(s, Next(s, e))
  {
  }

  lemma TaskIsTidy(s: State, e: Event)
    requires Inv(s) && Enabled(s, e)
    requires e.Enter? || e.TurnStarts? || e.TurnEnds? || e.WorkerSeesTurn? || e.DeadlinePasses?
          || e.DeadlineCancelReturns? || e.GraceSeesTurn? || e.GracePasses?
    ensures Tidy(s, Next(s, e))
  {
    if e.TurnStarts? || e.TurnEnds? {
      TurnIsTidy(s, e);
      hide Inv, Tidy, Next;
    } else if e.Enter? || e.WorkerSeesTurn? || e.GraceSeesTurn? {
      hide EnterPrompt, ResumeTurn, ResumeGrace, Tidy, Inv;
      match e {
        case Enter(op) => EnterIsTidy(s, op);
        case WorkerSeesTurn(op) => TurnSeenIsTidy(s, op);
        case GraceSeesTurn(op) => GraceSeenIsTidy(s, op);
      }
    } else {
      WaitIsTidy(s, e);
      hide Inv, Tidy, Next;
    }
  }

  lemma WaitIsTidy(s: State, e: Event)
    requires Inv(s) && Enabled(s, e) && (e.DeadlinePasses? || e.DeadlineCancelReturns? || e.GracePasses?)
    ensures Tidy(s, Next(s, e))
  {
    UndisturbedWorker(s, e.op);
    hide AbandonPrompt, Quarantine, Inv;
  }

  /** What a control task's step can be: a loss, a retirement, or a move of its own record. */
  lemma ControlNext(s: State, e: Event)
    requires Enabled(s, e)
    requires e.CancelStarts? || e.CancelReturns? || e.CancelSeesTarget? || e.CancelGracePasses?
          || e.RetireStarts? || e.RetireReturns?
    ensures var t := Next(s, e);
            || !t.continuity.Current?
            || (e.RetireReturns? && e.settled && ControlAt(s, e.op, RetireSession, AwaitRetire)
                && t == RetireFinished(s, e.op, true, e.destroyed))
            || (t.continuity == s.continuity && t.sessions == s.sessions && t.requests == s.requests
                && forall o :: o in t.records && o != e.op ==> o in s.records && t.records[o] == s.records[o])
    ensures e.op in s.workers && !s.workers[e.op].cancelled && !s.workers[e.op].at.Settling?
    ensures e.op in s.records && !s.records[e.op].kind.Prompt?
  {
    hide Quarantine, MarkNonReusable, FinishRetire;
  }

  lemma ControlIsTidy(s: State, e: Event)
    requires Inv(s) && Enabled(s, e)
    requires e.CancelStarts? || e.CancelReturns? || e.CancelSeesTarget? || e.CancelGracePasses?
          || e.RetireStarts? || e.RetireReturns?
    ensures Tidy(s, Next(s, e))
  {
    ControlNext(s, e);
    UndisturbedWorker(s, e.op);
    assert RecordShape(s, e.op);
    hide Inv, Next, Enabled, Tidy, RetireFinished;
    var t := Next(s, e);
    if !t.continuity.Current? {
      LossIsTidy(s, t);
    } else if t.sessions == s.sessions && t.requests == s.requests
              && (forall o :: o in t.records && o != e.op ==> o in s.records && t.records[o] == s.records[o]) {
      OwnRecordIsTidy(s, t, e.op);
    } else {
      RetireFinishedIsTidy(s, e.op, e.destroyed);
    }
  }

  lemma LossIsTidy(s: State, t: State)
    requires !t.continuity.Current?
    ensures Tidy(s, t)
  {
  }

  /** A control task that only moves its own record on. */
  lemma OwnRecordIsTidy(s: State, t: State, op: OperationId)
    requires s.continuity.Current? && t.sessions == s.sessions && t.requests == s.requests
    requires op !in s.requests
    requires forall o :: o in t.requests && o in t.records && o != op ==> o in s.records && t.records[o] == s.records[o]
    ensures Tidy(s, t)
  {
  }

  lemma CleanupIsTidy(s: State, e: Event)
    requires Inv(s) && Enabled(s, e)
    requires e.CancelledWorkerResumes? || e.GenerationLost? || e.TasksDrained? || e.DrainingCallerCancelled? || e.StopReturns?
    ensures Tidy(s, Next(s, e))
  {
    if e.CancelledWorkerResumes? {
      assert WorkerOk(s, e.op);
    }
    hide Quarantine, Unwind, Publish, Inv;
  }

  lemma StepStaysClean(s: State, e: Event)
    requires Inv(s) && Clean(s)
    ensures Clean(Step(s, e))
  {
    hide Inv, Clean, Tidy, Next, AdmitCreate, AdmitPrompt, AdmitCancel, AdmitRetire;
    if Enabled(s, e) {
      if e.Create? || e.SubmitPrompt? || e.SubmitCancel? || e.SubmitRetire? {
        AdmissionIsTidy(s, e);
      } else if e.CancelStarts? || e.CancelReturns? || e.CancelSeesTarget? || e.CancelGracePasses?
                || e.RetireStarts? || e.RetireReturns? {
        ControlIsTidy(s, e);
      } else if e.CancelledWorkerResumes? || e.GenerationLost? || e.TasksDrained? || e.DrainingCallerCancelled?
                || e.StopReturns? {
        CleanupIsTidy(s, e);
      } else {
        TaskIsTidy(s, e);
      }
      TidyStepsStayClean(s, Next(s, e));
    }
  }

  lemma AdmissionIsTidy(s: State, e: Event)
    requires Inv(s) && (e.Create? || e.SubmitPrompt? || e.SubmitCancel? || e.SubmitRetire?)
    ensures Enabled(s, e) && Tidy(s, Next(s, e))
  {
    hide Inv, Tidy, AdmitCreate, AdmitPrompt, AdmitCancel, AdmitRetire;
    match e {
      case Create(r, alive, allocates) => CreationIsTidy(s, r, alive, allocates);
      case SubmitPrompt(r, alive) => PromptIsTidy(s, r, alive);
      case SubmitCancel(r, alive) => CancellationIsTidy(s, r, alive);
      case SubmitRetire(r, alive) => RetirementIsTidy(s, r, alive);
    }
  }

  lemma {:induction false} RunStaysClean(s: State, events: seq<Event>)
    requires Inv(s) && Clean(s)
    ensures Clean(Run(s, events))
    decreases |events|
  {
    if events != [] {
      StepKeeps(s, events[0]);
      StepStaysClean(s, events[0]);
      hide Inv, Clean;
      RunStaysClean(Step(s, events[0]), events[1..]);
    }
  }

  /** A prompt is admitted only into a session whose every earlier prompt is settled, and either
      completed or was cancelled before dispatch: no doubtful, failed, stopped or timed out turn ever has
      a successor in its session. */
  lemma SessionsAreReusedWhenCertain(limits: Limits, events: seq<Event>, r: PromptRequest, alive: bool, op: OperationId)
    requires AdmitPrompt(Run(Init(limits), events), r, alive).1 == Operation(r.op, true)
    requires op in Run(Init(limits), events).requests && op in Run(Init(limits), events).records
    requires Run(Init(limits), events).requests[op].session == r.session
    ensures Run(Init(limits), events).records[op].state.Terminal()
    ensures Harmless(Run(Init(limits), events).records[op])
  {
    var s := Run(Init(limits), events);
    InitHolds(limits);
    RunKeeps(Init(limits), events);
    RunStaysClean(Init(limits), events);
    assert RecordShape(s, op) && EngagedOk(s, op) && CleanAt(s, op);
  }
}
