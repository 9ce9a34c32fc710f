/** What becomes of the operations that a loss of the generation finds unsettled: their outcome, its cause, and the
    evidence that a prompt retains. */
module DirectEvidence {
  import opened Basics
  import opened DirectState
  import opened DirectProtocol
  import opened DirectInvariants
  import opened DirectSteps
  import opened DirectLoss
  import opened DirectTheorems
  import opened DirectLaws
  import opened DirectAdmission

  // ---------------------------------------------------------------- collectors

  /** A turn's outcome is final. */
  ghost predicate TurnsKept(s: State, t: State) {
    forall op | op in s.turns :: op in t.turns && (s.turns[op].phase.Done? ==> t.turns[op].phase == s.turns[op].phase)
  }

  /** The collectors that a step lets go of belong to prompts that have settled, and those it adds it keeps. */
  ghost predicate CollectorsKept(s: State, t: State) {
    && (forall op | op in s.tracked :: op in t.tracked || (op in t.records && t.records[op].state.Terminal()))
    && (forall op | op in t.turns :: op in s.turns || op in t.tracked)
  }

  /** While continuity holds, the service keeps the collector of every unsettled prompt that has one. */
  ghost predicate Watched(s: State) {
    s.continuity.Current? ==>
      forall op | op in s.turns && op in s.records && !s.records[op].state.Terminal() :: op in s.tracked
  }

  lemma CreationTurns(s: State, r: CreateRequest, alive: bool, allocates: bool)
    ensures var t := AdmitCreate(s, r, alive, allocates).0; t.turns == s.turns && t.tracked == s.tracked
  {
  }

  lemma PromptTurns(s: State, r: PromptRequest, alive: bool)
    ensures var t := AdmitPrompt(s, r, alive).0; t.turns == s.turns && t.tracked == s.tracked
  {
    hide LifetimeValid;
  }

  lemma CancellationTurns(s: State, r: CancelCall, alive: bool)
    ensures var t := AdmitCancel(s, r, alive).0; t.turns == s.turns && t.tracked == s.tracked
  {
  }

  lemma RetirementTurns(s: State, r: RetireCall, alive: bool)
    ensures var t := AdmitRetire(s, r, alive).0; t.turns == s.turns && t.tracked == s.tracked
  {
  }

  lemma AdmissionTurns(s: State, e: Event)
    requires Enabled(s, e) && (e.Create? || e.SubmitPrompt? || e.SubmitCancel? || e.SubmitRetire?)
    ensures Next(s, e).turns == s.turns && Next(s, e).tracked == s.tracked
  {
    hide AdmitCreate, AdmitPrompt, AdmitCancel, AdmitRetire;
    match e {
      case Create(r, alive, allocates) => CreationTurns(s, r, alive, allocates);
      case SubmitPrompt(r, alive) => PromptTurns(s, r, alive);
      case SubmitCancel(r, alive) => CancellationTurns(s, r, alive);
      case SubmitRetire(r, alive) => RetirementTurns(s, r, alive);
    }
  }

  lemma FinishTurns(s: State, op: OperationId, dispatched: bool)
    requires op in s.records && op in s.requests && s.requests[op].session in s.sessions
    ensures FinishPrompt(s, op, dispatched).turns == s.turns && FinishPrompt(s, op, dispatched).tracked == s.tracked
  {
  }

  lemma QuarantineTurns(s: State, t: State, owner: Owner, deferred: map<OperationId, Settlement>)
    requires t.turns == s.turns
    ensures TurnsKept(s, Quarantine(t, owner, deferred))
  {
  }

  lemma AbandonTurns(s: State, op: OperationId, result: Result, error: ErrorCode)
    ensures TurnsKept(s, AbandonPrompt(s, op, result, error))
  {
    QuarantineTurns(s, PopDone(s, op).(lock := None), ByWorker(op), map[op := Settlement(InDoubt, result, error)]);
    hide Quarantine;
  }

  lemma UnwindTurns(s: State, op: OperationId)
    requires UnwindReady(s, op)
    ensures Unwind(s, op).turns == s.turns
  {
  }

  lemma PublishTurns(s: State, stopSettled: bool, failed: bool)
    requires Publishable(s)
    ensures Publish(s, stopSettled, failed).turns == s.turns
  {
    var published := s.(
      records := map op | op in s.records :: PublishedRecord(s, op, failed),
      continuity := Closed(stopSettled, failed));
    hide PublishedRecord, Unwind;
    if s.continuity.owner.ByWorker? && UnwindReady(published, s.continuity.owner.op) {
      UnwindTurns(published, s.continuity.owner.op);
    }
  }

  lemma SettleTurns(s: State, op: OperationId, outcome: OperationState, result: Result, error: ErrorCode,
                    use: SessionState, instructions: InstructionState)
    requires op in s.records && op in s.requests && s.requests[op].session in s.sessions && outcome.Terminal()
    ensures var t := Settle(s, op, outcome, result, error, use, instructions);
      && t.turns == s.turns && s.tracked - {op} <= t.tracked && op in t.records && t.records[op].state.Terminal()
  {
    SettleSets(s, op, outcome, result, error, use, instructions);
    FinishTurns(PopDone(s, op).(records := s.records[op := s.records[op].SetTerminal(outcome, result, error)],
                                sessions := WithSession(s, op, use, instructions)), op, true);
    hide FinishPrompt;
  }

  ghost predicate Followed(s: State, t: State) {
    TurnsKept(s, t) && (t.continuity.Current? ==> CollectorsKept(s, t))
  }

  lemma SettleTerminalTurns(s: State, op: OperationId, outcome: TurnOutcome)
    requires op in s.records && op in s.requests && s.requests[op].session in s.sessions && outcome.Terminal()
    ensures Followed(s, SettleTerminal(s, op, outcome))
  {
    var sid, o := s.requests[op].session, outcome.observation;
    var inactive := s.(sessions := s.sessions[sid := s.sessions[sid].(active := None)]);
    forall final: OperationState, error, use, result, instructions | final.Terminal()
      ensures Followed(s, Settle(s, op, final, result, error, use, instructions))
    {
      SettleTurns(s, op, final, result, error, use, instructions);
    }
    QuarantineTurns(s, PopDone(inactive, op), ByWorker(op),
                    map[op := Settlement(InDoubt, RetainedEvidence(o), CancellationStopMismatch)]);
    AbandonTurns(inactive, op, NoResult, PromptInDoubt);
    hide Settle, Quarantine, AbandonPrompt, CollectorsKept, RecordSubmission;
  }

  lemma TurnSeenFollows(s: State, op: OperationId)
    requires PromptWithTurn(s, op, AwaitTurn)
    ensures Followed(s, ResumeTurn(s, op))
  {
    var o := s.turns[op].phase.outcome;
    AbandonTurns(s, op, NoResult, PromptInDoubt);
    if o.Unsettled? {
      AbandonTurns(s, op, RetainedEvidence(o.observation), PromptInDoubt);
    }
    if o.Terminal() {
      SettleTerminalTurns(s, op, o);
    }
    hide SettleTerminal, AbandonPrompt;
  }

  lemma GraceSeenFollows(s: State, op: OperationId)
    requires PromptWithTurn(s, op, DeadlineGrace)
    ensures Followed(s, ResumeGrace(s, op))
  {
    var o := s.turns[op].phase.outcome;
    AbandonTurns(s, op, NoResult, PromptInDoubt);
    QuarantineTurns(s, s, ByWorker(op), map[op := Settlement(InDoubt, NoResult, DeadlineSettlementUnknown)]);
    if o.Unsettled? {
      AbandonTurns(s, op, RetainedEvidence(o.observation), PromptInDoubt);
    }
    if o.Terminal() {
      QuarantineTurns(s, s, ByWorker(op), map[op := Settlement(InDoubt, RetainedEvidence(o.observation), DeadlineStopMismatch)]);
      SettleTurns(s, op, TimedOut, RetainedEvidence(o.observation), ExecutionDeadline, NonReusable,
                  s.sessions[s.requests[op].session].instructions);
    }
    hide Settle, Quarantine, AbandonPrompt;
  }

  lemma EnterTurns(s: State, op: OperationId)
    requires Inv(s) && Enabled(s, Enter(op))
    ensures Followed(s, EnterPrompt(s, op))
  {
    UndisturbedWorker(s, op);
    assert WorkerOk(s, op);
    FinishTurns(s, op, false);
    hide Inv, FinishPrompt, MustWait;
  }

  lemma TaskTurns(s: State, e: Event)
    requires Enabled(s, e)
    requires e.TurnStarts? || e.TurnEnds? || e.DeadlinePasses? || e.DeadlineCancelReturns? || e.GracePasses?
    ensures Followed(s, Next(s, e))
  {
    if e.DeadlineCancelReturns? {
      AbandonTurns(s, e.op, NoResult, PromptInDoubt);
    } else if e.GracePasses? {
      QuarantineTurns(s, s, ByWorker(e.op), map[e.op := Settlement(InDoubt, NoResult, DeadlineSettlementUnknown)]);
    }
    hide Quarantine, AbandonPrompt;
  }

  lemma ControlTurns(s: State, e: Event)
    requires Enabled(s, e)
    requires e.CancelStarts? || e.CancelReturns? || e.CancelSeesTarget? || e.CancelGracePasses?
          || e.RetireStarts? || e.RetireReturns?
    ensures Followed(s, Next(s, e))
  {
    forall t: State, owner, deferred | t.turns == s.turns
      ensures TurnsKept(s, Quarantine(t, owner, deferred))
    {
      QuarantineTurns(s, t, owner, deferred);
    }
    hide Quarantine;
  }

  lemma CleanupTurns(s: State, e: Event)
    requires Enabled(s, e)
    requires e.GenerationLost? || e.TasksDrained? || e.DrainingCallerCancelled? || e.StopReturns?
    ensures Followed(s, Next(s, e))
  {
    match e {
      case GenerationLost => QuarantineTurns(s, s, External, map[]);
      case TasksDrained =>
      case DrainingCallerCancelled => PublishTurns(s.(continuity := ToStopping(s.continuity)), false, false);
      case StopReturns(failed) => PublishTurns(s, true, failed);
    }
    hide Quarantine, Publish;
  }

  lemma UnwindFollows(s: State, op: OperationId)
    requires Inv(s) && UnwindReady(s, op) && s.workers[op].cancelled
    ensures Followed(s, Unwind(s, op))
  {
    assert WorkerOk(s, op);
    UnwindTurns(s, op);
    hide Inv, Unwind;
  }

  lemma EnterNext(s: State, e: Event)
    requires Enabled(s, e) && e.Enter?
    ensures (PromptAt(s, e.op, Scheduled) || PromptAt(s, e.op, AwaitLock)) && Next(s, e) == EnterPrompt(s, e.op)
  {
  }

  lemma ResumeNext(s: State, e: Event)
    requires Enabled(s, e) && e.CancelledWorkerResumes?
    ensures UnwindReady(s, e.op) && s.workers[e.op].cancelled && Next(s, e) == Unwind(s, e.op)
  {
  }

  lemma StepFollows(s: State, e: Event)
    requires Inv(s)
    ensures Followed(s, Step(s, e))
  {
    hide Inv, Next, Enabled, Followed;
    if Enabled(s, e) {
      if e.Create? || e.SubmitPrompt? || e.SubmitCancel? || e.SubmitRetire? {
        AdmissionTurns(s, e);
        SameTurns(s, Next(s, e));
      } else if e.WorkerSeesTurn? {
        SeenNext(s, e);
        TurnSeenFollows(s, e.op);
      } else if e.GraceSeesTurn? {
        SeenNext(s, e);
        GraceSeenFollows(s, e.op);
      } else if e.Enter? {
        EnterNext(s, e);
        EnterTurns(s, e.op);
      } else if e.CancelledWorkerResumes? {
        ResumeNext(s, e);
        UnwindFollows(s, e.op);
      } else if e.CancelStarts? || e.CancelReturns? || e.CancelSeesTarget? || e.CancelGracePasses?
                || e.RetireStarts? || e.RetireReturns? {
        ControlTurns(s, e);
      } else if e.GenerationLost? || e.TasksDrained? || e.DrainingCallerCancelled? || e.StopReturns? {
        CleanupTurns(s, e);
      } else {
        TaskTurns(s, e);
      }
    } else {
      SameTurns(s, s);
    }
  }

  lemma SameTurns(s: State, t: State)
    requires t.turns == s.turns && t.tracked == s.tracked
    ensures Followed(s, t)
  {
  }

  lemma StepWatches(s: State, e: Event)
    requires Inv(s) && Watched(s)
    ensures Watched(Step(s, e))
  {
    StepKeeps(s, e);
    StepFollows(s, e);
    var t := Step(s, e);
    if t.continuity.Current? {
      forall op | op in t.turns && op in t.records && !t.records[op].state.Terminal()
        ensures op in t.tracked
      {
        if op in s.turns {
          assert RecordShape(s, op) by {
            assert op in s.records;
          }
          assert RecordProgress(s, t, op);
        }
      }
    }
    hide Inv, Step;
  }

  /** Over every run: collectors are kept until their prompts settle, and the outcome of a turn is final. */
  lemma {:induction false} RunWatches(s: State, events: seq<Event>)
    requires Inv(s) && Watched(s)
    ensures Watched(Run(s, events)) && TurnsKept(s, Run(s, events))
    decreases |events|
  {
    if events != [] {
      StepKeeps(s, events[0]);
      StepWatches(s, events[0]);
      StepFollows(s, events[0]);
      hide Inv, Step;
      RunWatches(Step(s, events[0]), events[1..]);
    }
  }

  // ---------------------------------------------------------------- what a loss decides

  /** The settlements that a losing step decides itself; `NoResult` leaves a prompt the evidence its collector ends with. */
  function Verdicts(s: State, e: Event): map<OperationId, Settlement>
    requires Enabled(s, e)
  {
    match e
    case WorkerSeesTurn(op) =>
      (match s.turns[op].phase.outcome
       case TurnCompleted(o, _) =>
         if s.records[op].state.Cancelling? then
           map[op := Settlement(InDoubt, RetainedEvidence(o), CancellationStopMismatch)]
         else map[op := Settlement(InDoubt, NoResult, PromptInDoubt)]
       case Unsettled(o) => map[op := Settlement(InDoubt, RetainedEvidence(o), PromptInDoubt)]
       case _ => map[op := Settlement(InDoubt, NoResult, PromptInDoubt)])
    case GraceSeesTurn(op) =>
      (match s.turns[op].phase.outcome
       case TurnCompleted(o, _) => map[op := Settlement(InDoubt, RetainedEvidence(o), DeadlineStopMismatch)]
       case TurnFailed(o) => map[op := Settlement(InDoubt, RetainedEvidence(o), DeadlineStopMismatch)]
       case Unsettled(o) => map[op := Settlement(InDoubt, RetainedEvidence(o), PromptInDoubt)]
       case RaisedTimeout => map[op := Settlement(InDoubt, NoResult, DeadlineSettlementUnknown)]
       case _ => map[op := Settlement(InDoubt, NoResult, PromptInDoubt)])
    case GracePasses(op) => map[op := Settlement(InDoubt, NoResult, DeadlineSettlementUnknown)]
    case DeadlineCancelReturns(op, _) => map[op := Settlement(InDoubt, NoResult, PromptInDoubt)]
    case CancelReturns(op, _) => map[
      s.records[op].target.value := Settlement(InDoubt, NoResult, CancelTransportFailed),
      op := Settlement(Failed, NoResult, CancelFailed)]
    case CancelGracePasses(op) => map[
      s.records[op].target.value := Settlement(InDoubt, NoResult, CancellationSettlementUnknown),
      op := Settlement(Completed, CancelReceipt(InDoubt, true), NoError)]
    case RetireReturns(op, _, _) => map[op := Settlement(InDoubt, NoResult, RetirementInDoubt)]
    case _ => map[]
  }

  /** The step lets go of the collector of its own prompt, because it has ended. */
  predicate LetsGo(s: State, e: Event, x: OperationId)
    requires Enabled(s, e)
  {
    || e == WorkerSeesTurn(x)
    || (e == GraceSeesTurn(x) && (s.turns[x].phase.outcome.RaisedOther? || s.turns[x].phase.outcome.Unsettled?))
    || (e.DeadlineCancelReturns? && e.op == x && x in s.turns && s.turns[x].phase.Done?)
  }

  ghost predicate LostWith(s: State, t: State, e: Event)
    requires Enabled(s, e)
  {
    && t.continuity.Draining? && t.continuity.deferred == Verdicts(s, e) && t.turns.Keys == s.turns.Keys
    && forall x :: x in t.continuity.held <==> x in s.tracked && !LetsGo(s, e, x)
  }

  lemma QuarantineHolds(s: State, owner: Owner, deferred: map<OperationId, Settlement>)
    ensures var c := Quarantine(s, owner, deferred).continuity; c.Draining? && c.deferred == deferred && c.held == s.tracked
    ensures Quarantine(s, owner, deferred).turns.Keys == s.turns.Keys
  {
  }

  lemma AbandonHolds(s: State, op: OperationId, result: Result, error: ErrorCode)
    ensures var c := AbandonPrompt(s, op, result, error).continuity;
      && c.Draining? && c.deferred == map[op := Settlement(InDoubt, result, error)]
      && c.held == (if op in s.turns && s.turns[op].phase.Done? then s.tracked - {op} else s.tracked)
    ensures AbandonPrompt(s, op, result, error).turns.Keys == s.turns.Keys
  {
    QuarantineHolds(PopDone(s, op).(lock := None), ByWorker(op), map[op := Settlement(InDoubt, result, error)]);
    hide Quarantine;
  }

  lemma DoubtHolds(s: State, op: OperationId)
    requires PromptWithTurn(s, op, AwaitTurn) && Doubtful(s.turns[op].phase.outcome, s.records[op].state)
    ensures LostWith(s, ResumeTurn(s, op), WorkerSeesTurn(op))
  {
    var o, sid := s.turns[op].phase.outcome, s.requests[op].session;
    AbandonHolds(s, op, NoResult, PromptInDoubt);
    if o.Unsettled? {
      AbandonHolds(s, op, RetainedEvidence(o.observation), PromptInDoubt);
    } else if o.Terminal() {
      var inactive := s.(sessions := s.sessions[sid := s.sessions[sid].(active := None)]);
      AbandonHolds(inactive, op, NoResult, PromptInDoubt);
      QuarantineHolds(PopDone(inactive, op), ByWorker(op),
                      map[op := Settlement(InDoubt, RetainedEvidence(o.observation), CancellationStopMismatch)]);
    }
    hide Quarantine, AbandonPrompt, Settle;
  }

  lemma GraceHolds(s: State, op: OperationId)
    requires PromptWithTurn(s, op, DeadlineGrace) && !s.turns[op].phase.outcome.TurnCancelled?
    ensures LostWith(s, ResumeGrace(s, op), GraceSeesTurn(op))
  {
    var o := s.turns[op].phase.outcome;
    AbandonHolds(s, op, NoResult, PromptInDoubt);
    QuarantineHolds(s, ByWorker(op), map[op := Settlement(InDoubt, NoResult, DeadlineSettlementUnknown)]);
    if o.Unsettled? {
      AbandonHolds(s, op, RetainedEvidence(o.observation), PromptInDoubt);
    } else if o.Terminal() {
      QuarantineHolds(s, ByWorker(op), map[op := Settlement(InDoubt, RetainedEvidence(o.observation), DeadlineStopMismatch)]);
    }
    hide Quarantine, AbandonPrompt, Settle;
  }

  lemma TaskHolds(s: State, e: Event)
    requires Enabled(s, e) && Loses(s, e) && (e.DeadlineCancelReturns? || e.GracePasses? || e.GenerationLost?)
    ensures LostWith(s, Next(s, e), e)
  {
    if e.GenerationLost? {
      QuarantineHolds(s, External, map[]);
    } else {
      AbandonHolds(s, e.op, NoResult, PromptInDoubt);
      QuarantineHolds(s, ByWorker(e.op), map[e.op := Settlement(InDoubt, NoResult, DeadlineSettlementUnknown)]);
    }
    hide Quarantine, AbandonPrompt;
  }

  lemma ControlHolds(s: State, e: Event)
    requires Enabled(s, e) && Loses(s, e) && (e.CancelReturns? || e.CancelGracePasses? || e.RetireReturns?)
    ensures LostWith(s, Next(s, e), e)
  {
    if e.RetireReturns? {
      QuarantineHolds(s, ByWorker(e.op), Verdicts(s, e));
    } else {
      QuarantineHolds(MarkNonReusable(s, s.records[e.op].session), ByWorker(e.op), Verdicts(s, e));
    }
    hide Quarantine;
  }

  lemma LossHolds(s: State, e: Event)
    requires Enabled(s, e) && Loses(s, e)
    ensures LostWith(s, Next(s, e), e)
  {
    hide LostWith, Next;
    if e.WorkerSeesTurn? {
      SeenNext(s, e);
      DoubtHolds(s, e.op);
    } else if e.GraceSeesTurn? {
      SeenNext(s, e);
      GraceHolds(s, e.op);
    } else if e.CancelReturns? || e.CancelGracePasses? || e.RetireReturns? {
      ControlHolds(s, e);
    } else {
      TaskHolds(s, e);
    }
  }

  // ---------------------------------------------------------------- from the loss to publication

  /** The same call quarantines the generation, with the same lists. */
  predicate SameLoss(c: Continuity, d: Continuity) {
    && (c.Draining? || c.Stopping?) && (d.Draining? || d.Stopping?)
    && d.doomed == c.doomed && d.deferred == c.deferred && d.held == c.held
  }

  /** What publication makes of an unsettled record. */
  function PublishedAs(r: Record, verdicts: map<OperationId, Settlement>, x: OperationId, evidence: Result,
                       failed: bool): Record
  {
    if x !in verdicts then r.(state := InDoubt, result := evidence, error := ContinuityLost)
    else
      r.(state := if failed then InDoubt else verdicts[x].state,
         result := if verdicts[x].result.NoResult? then evidence else verdicts[x].result,
         error := if failed then CleanupSettlementUnknown else verdicts[x].error)
  }

  /** Until it closes, a lost generation keeps its lists and its records; when it closes, they are published. */
  ghost predicate LossGoesOn(s: State, t: State)
    requires s.continuity.Draining? || s.continuity.Stopping?
  {
    if t.continuity.Closed? then
      && t.turns == s.turns && (forall op {:trigger Unfinished1(t, op)} :: !Unfinished1(t, op))
      && forall x | x in s.records && !s.records[x].state.Terminal() ::
           && x in t.records && (x in s.continuity.doomed || x in s.continuity.deferred)
           && t.records[x] == PublishedAs(s.records[x], s.continuity.deferred, x, LostEvidence(s, x, s.continuity.held),
                                          t.continuity.cleanupFailed)
    else SameLoss(s.continuity, t.continuity) && t.records == s.records && t.requests == s.requests
  }

  lemma PublicationGoesOn(s: State, stopSettled: bool, failed: bool)
    requires Inv(s) && Publishable(s)
    ensures LossGoesOn(s, Publish(s, stopSettled, failed))
  {
    var t := Publish(s, stopSettled, failed);
    PublishEffect(s, stopSettled, failed);
    PublishTurns(s, stopSettled, failed);
    NoTurnIsOpen(s, t);
    hide Publish, LostEvidence, PublishedRecord, PublishedAs;
    forall x | x in s.records && !s.records[x].state.Terminal()
      ensures x in t.records && (x in s.continuity.doomed || x in s.continuity.deferred)
      ensures t.records[x] == PublishedAs(s.records[x], s.continuity.deferred, x, LostEvidence(s, x, s.continuity.held), failed)
    {
      PublishedOne(s, x, failed);
    }
    hide Inv;
  }

  lemma NoTurnIsOpen(s: State, t: State)
    requires Inv(s) && s.continuity.Stopping? && t.turns == s.turns
    ensures forall op {:trigger Unfinished1(t, op)} :: !Unfinished1(t, op)
  {
    forall op
      ensures !Unfinished1(t, op)
    {
      assert !Unfinished1(s, op);
    }
  }

  lemma PublishedOne(s: State, x: OperationId, failed: bool)
    requires Inv(s) && Publishable(s) && x in s.records && !s.records[x].state.Terminal()
    ensures x in s.continuity.doomed || x in s.continuity.deferred
    ensures PublishedRecord(s, x, failed)
            == PublishedAs(s.records[x], s.continuity.deferred, x, LostEvidence(s, x, s.continuity.held), failed)
  {
    assert HasOwner(s, x);
    hide Inv, LostEvidence;
  }

  /** The steps of undisturbed workers end with the loss. */
  lemma StepsAfterLoss(s: State, e: Event)
    requires Inv(s) && Enabled(s, e) && !s.continuity.Current?
    ensures e.Create? || e.SubmitPrompt? || e.SubmitCancel? || e.SubmitRetire? || e.TurnStarts? || e.TurnEnds?
         || e.CancelledWorkerResumes? || e.TasksDrained? || e.DrainingCallerCancelled? || e.StopReturns?
  {
    if e.Enter? || e.WorkerSeesTurn? || e.DeadlinePasses? || e.DeadlineCancelReturns? || e.GraceSeesTurn? || e.GracePasses?
       || e.CancelStarts? || e.CancelReturns? || e.CancelSeesTarget? || e.CancelGracePasses? || e.RetireStarts?
       || e.RetireReturns?
    {
      UndisturbedWorker(s, e.op);
    }
    hide Inv;
  }

  lemma RefusedAfterLoss(s: State, e: Event)
    requires Enabled(s, e) && !s.continuity.Current?
    requires e.Create? || e.SubmitPrompt? || e.SubmitCancel? || e.SubmitRetire?
    ensures Next(s, e) == s
  {
    match e {
      case Create(r, alive, allocates) => CreationsAreAtomic(s, r, alive, allocates);
      case SubmitPrompt(r, alive) => PromptsAreAtomic(s, r, alive);
      case SubmitCancel(r, alive) => CancellationsAreAtomic(s, r, alive);
      case SubmitRetire(r, alive) => RetirementsAreAtomic(s, r, alive);
    }
    hide AdmitCreate, AdmitPrompt, AdmitCancel, AdmitRetire;
  }

  lemma UnwindGoesOn(s: State, op: OperationId)
    requires UnwindReady(s, op) && (s.continuity.Draining? || s.continuity.Stopping?)
    ensures LossGoesOn(s, Unwind(s, op))
  {
    UnwindEffect(s, op);
    hide Unwind;
  }

  lemma DrainedGoesOn(s: State, stopSettled: bool, failed: bool)
    requires Inv(s) && Drained(s)
    requires forall d | d in s.continuity.deferred :: s.continuity.deferred[d].state.Terminal()
    ensures LossGoesOn(s, Publish(s.(continuity := ToStopping(s.continuity)), stopSettled, failed))
  {
    var drained := s.(continuity := ToStopping(s.continuity));
    DrainedKeeps(s);
    PublicationGoesOn(drained, stopSettled, failed);
    hide Inv, Publish, PublishedAs;
    forall x | x in s.records
      ensures LostEvidence(drained, x, s.continuity.held) == LostEvidence(s, x, s.continuity.held)
    {
    }
    hide LostEvidence;
  }

  lemma PublicationNext(s: State, e: Event)
    requires Inv(s) && Enabled(s, e) && (e.StopReturns? || e.DrainingCallerCancelled?)
    ensures (s.continuity.Draining? || s.continuity.Stopping?) && LossGoesOn(s, Next(s, e))
  {
    if e.StopReturns? {
      PublicationGoesOn(s, true, e.failed);
    } else {
      DrainedGoesOn(s, false, false);
    }
    hide Inv, Publish;
  }

  lemma NothingGoesOn(s: State)
    requires s.continuity.Draining? || s.continuity.Stopping?
    ensures LossGoesOn(s, s)
  {
  }

  lemma TurnGoesOn(s: State, e: Event)
    requires Enabled(s, e) && (e.TurnStarts? || e.TurnEnds? || e.TasksDrained?)
    requires s.continuity.Draining? || s.continuity.Stopping?
    ensures LossGoesOn(s, Next(s, e))
  {
  }

  lemma LossStep(s: State, e: Event)
    requires Inv(s) && (s.continuity.Draining? || s.continuity.Stopping?)
    ensures LossGoesOn(s, Step(s, e))
  {
    hide Inv, Next, Enabled, LossGoesOn;
    NothingGoesOn(s);
    if Enabled(s, e) {
      StepsAfterLoss(s, e);
      if e.Create? || e.SubmitPrompt? || e.SubmitCancel? || e.SubmitRetire? {
        RefusedAfterLoss(s, e);
      } else if e.CancelledWorkerResumes? {
        ResumeNext(s, e);
        UnwindGoesOn(s, e.op);
      } else if e.StopReturns? || e.DrainingCallerCancelled? {
        PublicationNext(s, e);
      } else {
        TurnGoesOn(s, e);
      }
    }
  }

  /** What is known of `x` from a loss on: it waits to be published with the given settlements and collectors, or it has
      been published, and its turn is over. */
  ghost predicate Awaits(t: State, x: OperationId, r: Record, verdicts: map<OperationId, Settlement>, held: bool) {
    x in t.records &&
    match t.continuity
    case Current => false
    case Closed(_, failed) =>
      && (x in t.turns ==> t.turns[x].phase.Done?)
      && t.records[x] == PublishedAs(r, verdicts, x, EvidenceOf(t, x, r, held), failed)
    case _ => t.records[x] == r && t.continuity.deferred == verdicts && (x in t.continuity.held <==> held)
  }

  /** The outcome of the turn of `x` was observed. */
  predicate Observed(t: State, x: OperationId) {
    x in t.turns && t.turns[x].phase.Done? && (t.turns[x].phase.outcome.Terminal() || t.turns[x].phase.outcome.Unsettled?)
  }

  function EvidenceOf(t: State, x: OperationId, r: Record, held: bool): Result {
    if !r.kind.Prompt? then NoResult
    else RetainedEvidence(if held && Observed(t, x) then t.turns[x].phase.outcome.observation else NOTHING_OBSERVED)
  }

  lemma ClosedStays(t: State, e: Event, x: OperationId)
    requires Inv(t) && t.continuity.Closed? && x in t.records
    ensures var u := Step(t, e);
      && u.continuity == t.continuity && x in u.records && u.records[x] == t.records[x]
      && u.turns.Keys == t.turns.Keys
  {
    StepKeeps(t, e);
    assert HasOwner(t, x) && RecordProgress(t, Step(t, e), x);
    hide Inv, Step;
  }

  lemma AwaitsGoesOn(t: State, u: State, x: OperationId, r: Record, verdicts: map<OperationId, Settlement>, held: bool)
    requires Awaits(t, x, r, verdicts, held) && !r.state.Terminal() && !t.continuity.Closed?
    requires LossGoesOn(t, u)
    ensures Awaits(u, x, r, verdicts, held)
  {
    if u.continuity.Closed? {
      assert !Unfinished1(u, x);
      assert LostEvidence(t, x, t.continuity.held) == EvidenceOf(u, x, r, held);
    }
    hide PublishedAs, LostEvidence, EvidenceOf;
  }

  lemma AwaitsClosed(t: State, u: State, x: OperationId, r: Record, verdicts: map<OperationId, Settlement>, held: bool)
    requires Awaits(t, x, r, verdicts, held) && t.continuity.Closed? && u.continuity == t.continuity
    requires x in u.records && u.records[x] == t.records[x] && u.turns.Keys == t.turns.Keys && TurnsKept(t, u)
    ensures Awaits(u, x, r, verdicts, held)
  {
    hide PublishedAs;
  }

  lemma AwaitsStep(t: State, e: Event, x: OperationId, r: Record, verdicts: map<OperationId, Settlement>, held: bool)
    requires Inv(t) && Awaits(t, x, r, verdicts, held) && !r.state.Terminal()
    ensures Awaits(Step(t, e), x, r, verdicts, held)
  {
    hide Inv, Step, LossGoesOn, TurnsKept, PublishedAs;
    if t.continuity.Closed? {
      ClosedStays(t, e, x);
      StepFollows(t, e);
      AwaitsClosed(t, Step(t, e), x, r, verdicts, held);
    } else {
      LossStep(t, e);
      AwaitsGoesOn(t, Step(t, e), x, r, verdicts, held);
    }
  }

  lemma {:induction false} AwaitsRun(t: State, events: seq<Event>, x: OperationId, r: Record,
                                     verdicts: map<OperationId, Settlement>, held: bool)
    requires Inv(t) && Awaits(t, x, r, verdicts, held) && !r.state.Terminal()
    ensures Awaits(Run(t, events), x, r, verdicts, held)
    decreases |events|
  {
    if events != [] {
      AwaitsStep(t, events[0], x, r, verdicts, held);
      StepKeeps(t, events[0]);
      hide Inv, Step, Awaits;
      AwaitsRun(Step(t, events[0]), events[1..], x, r, verdicts, held);
    }
  }

  // ---------------------------------------------------------------- the outcome of a loss

  /** An observation that the service had and does not publish: its prompt's worker let go of the collector before the
      loss, because the binding had changed or because the stop after the deadline could not be sent. */
  predicate Dropped(s: State, e: Event, x: OperationId)
    requires Enabled(s, e) && x in s.records
  {
    || (e == WorkerSeesTurn(x) && s.turns[x].phase.outcome.TurnCompleted? && !s.records[x].state.Cancelling?)
    || (e == DeadlineCancelReturns(x, false) && Observed(s, x))
  }

  /** The result of an operation that a loss found unsettled: a prompt retains what its own turn was observed to do,
      exactly unless that was dropped. */
  function LostResult(s: State, e: Event, f: State, x: OperationId): Result
    requires Enabled(s, e) && x in s.records
  {
    if s.records[x].kind.Prompt? then
      RetainedEvidence(if Observed(f, x) && !Dropped(s, e, x) then f.turns[x].phase.outcome.observation else NOTHING_OBSERVED)
    else if x in Verdicts(s, e) then Verdicts(s, e)[x].result
    else NoResult
  }

  /** The operation has the outcome that the losing step decided, or is in doubt for the loss of continuity; and is in
      doubt, too, where cleanup failed. */
  ghost predicate SettledByLoss(s: State, e: Event, f: State, x: OperationId)
    requires Enabled(s, e) && x in s.records && f.continuity.Closed?
  {
    var verdicts, failed := Verdicts(s, e), f.continuity.cleanupFailed;
    && x in f.records
    && f.records[x] == s.records[x].(
         state := if x !in verdicts || failed then InDoubt else verdicts[x].state,
         error := if x !in verdicts then ContinuityLost else if failed then CleanupSettlementUnknown else verdicts[x].error,
         result := LostResult(s, e, f, x))
  }

  lemma LostResultIs(s: State, e: Event, f: State, x: OperationId, held: bool)
    requires Enabled(s, e) && Loses(s, e) && x in s.records
    requires x in s.turns ==>
               && (held <==> !LetsGo(s, e, x)) && x in f.turns
               && (s.turns[x].phase.Done? ==> f.turns[x].phase == s.turns[x].phase)
    requires x !in s.turns ==> x !in f.turns
    requires LetsGo(s, e, x) || Dropped(s, e, x) || (e.GraceSeesTurn? && e.op == x) ==>
               s.records[x].kind.Prompt? && x in s.turns
    ensures var evidence := EvidenceOf(f, x, s.records[x], held);
            LostResult(s, e, f, x) ==
              if x !in Verdicts(s, e) || Verdicts(s, e)[x].result.NoResult? then evidence else Verdicts(s, e)[x].result
  {
  }

  lemma AwaitsBegins(s: State, e: Event, x: OperationId)
    requires Inv(s) && Enabled(s, e) && s.continuity.Current? && Loses(s, e)
    requires x in s.records && !s.records[x].state.Terminal()
    ensures Awaits(Next(s, e), x, s.records[x], Verdicts(s, e), x in s.tracked && !LetsGo(s, e, x))
    ensures Next(s, e).turns.Keys == s.turns.Keys && !Next(s, e).continuity.Current?
  {
    LossHolds(s, e);
    LossLaw(s, e);
    hide Inv, Next, Enabled, Loses, Verdicts, LetsGo, PublishedAs;
  }

  /** The prompts that a losing step lets go of or decides by their own turn have one. */
  lemma OwnTurn(s: State, e: Event, x: OperationId)
    requires Inv(s) && Enabled(s, e) && s.continuity.Current? && x in s.records
    requires LetsGo(s, e, x) || Dropped(s, e, x) || (e.GraceSeesTurn? && e.op == x)
    ensures s.records[x].kind.Prompt? && x in s.turns
  {
    UndisturbedWorker(s, x);
    hide Inv;
  }

  lemma TurnsFrom(s: State, e: Event, later: seq<Event>)
    requires Inv(s) && Watched(s) && Enabled(s, e) && !Next(s, e).continuity.Current?
    ensures var t := Next(s, e); Inv(t) && TurnsKept(s, Run(t, later)) && Run(t, later).turns.Keys == t.turns.Keys
  {
    StepKeeps(s, e);
    StepFollows(s, e);
    StepWatches(s, e);
    RunKeeps(Next(s, e), later);
    RunWatches(Next(s, e), later);
    hide Inv, Next, Enabled, Run;
  }

  lemma LossOutcomeFrom(s: State, e: Event, later: seq<Event>, x: OperationId)
    requires Inv(s) && Watched(s) && Enabled(s, e) && s.continuity.Current? && Loses(s, e)
    requires x in s.records && !s.records[x].state.Terminal() && Run(Step(s, e), later).continuity.Closed?
    ensures SettledByLoss(s, e, Run(Step(s, e), later), x)
  {
    hide Inv, Next, Enabled, Loses, Run, Verdicts, LetsGo, Dropped, LostResult, EvidenceOf;
    var f := Run(Step(s, e), later);
    var held := x in s.tracked && !LetsGo(s, e, x);
    AwaitsBegins(s, e, x);
    TurnsFrom(s, e, later);
    AwaitsRun(Next(s, e), later, x, s.records[x], Verdicts(s, e), held);
    if LetsGo(s, e, x) || Dropped(s, e, x) || (e.GraceSeesTurn? && e.op == x) {
      OwnTurn(s, e, x);
    }
    LostResultIs(s, e, f, x, held);
  }

  lemma WatchedAlways(limits: Limits, events: seq<Event>)
    ensures Inv(Run(Init(limits), events)) && Watched(Run(Init(limits), events))
  {
    InitHolds(limits);
    Reachable(limits, events);
    RunWatches(Init(limits), events);
  }

  lemma AfterAll(limits: Limits, events: seq<Event>, e: Event, later: seq<Event>)
    ensures Run(Init(limits), events + [e] + later) == Run(Step(Run(Init(limits), events), e), later)
  {
    hide Step, Init;
    AfterRequest(limits, events, e);
    RunAppends(Init(limits), events + [e], later);
  }

  /** What becomes of an operation that a loss finds unsettled, over every run. */
  lemma LossOutcome(limits: Limits, events: seq<Event>, e: Event, later: seq<Event>, x: OperationId)
    requires Enabled(Run(Init(limits), events), e) && Run(Init(limits), events).continuity.Current?
    requires Loses(Run(Init(limits), events), e)
    requires x in Run(Init(limits), events).records && !Run(Init(limits), events).records[x].state.Terminal()
    requires Run(Init(limits), events + [e] + later).continuity.Closed?
    ensures SettledByLoss(Run(Init(limits), events), e, Run(Init(limits), events + [e] + later), x)
  {
    hide Inv, Watched, Enabled, Loses, Step, Run, Init, SettledByLoss;
    WatchedAlways(limits, events);
    AfterAll(limits, events, e, later);
    LossOutcomeFrom(Run(Init(limits), events), e, later, x);
  }
}
