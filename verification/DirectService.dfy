/** The direct service itself: its fields and one method per atomic step. Each method is
    proved to be the step of the same event in `DirectProtocol`, whose runs are the subject
    of `DirectTheorems`. */
module DirectServices {
  import opened Basics
  import opened DirectState
  import opened DirectProtocol
  import opened DirectInvariants
  import opened DirectTheorems

  class DirectService {
    const limits: Limits
    var records: Ledger
    var sessions: map<SessionId, Session>
    var requests: map<OperationId, PromptRequest>
    var workers: map<OperationId, Worker>
    var turns: map<OperationId, Turn>
    var tracked: set<OperationId>
    var promptLock: Option<OperationId>
    var promptReservations: int
    var releasedReservations: set<OperationId>
    var continuity: Continuity
    // History only, read by no method.
    var started: seq<OperationId>
    var unsettledAtLoss: set<OperationId>
    var staleExpiries: set<OperationId>

    function View(): State
      reads this
    {
      State(limits, records, sessions, requests, workers, turns, tracked, promptLock, promptReservations,
            releasedReservations, continuity, started, unsettledAtLoss, staleExpiries)
    }

    ghost predicate Valid()
      reads this
    {
      Inv(View())
    }

    constructor (limits: Limits)
      ensures Valid() && View() == Init(limits)
    {
      this.limits := limits;
      records, sessions, requests, workers, turns := map[], map[], map[], map[], map[];
      tracked, promptLock, promptReservations, releasedReservations := {}, None, 0, {};
      continuity, started, unsettledAtLoss, staleExpiries := Current, [], {}, {};
      new;
      InitHolds(limits);
    }

    // -------------------------------------------------------------- admission

    method AdmitCreate(r: CreateRequest, alive: bool, allocates: bool) returns (reply: Reply)
      modifies this
      ensures (View(), reply) == DirectProtocol.AdmitCreate(old(View()), r, alive, allocates)
    {
      if !r.pinned || !continuity.Current? || !alive { return Refused(GenerationMismatch); }
      if !r.sameWorkspace { return Refused(WorkspaceMismatch); }
      if !r.modelAdvertised { return Refused(Conflict); }
      if r.op !in records {
        if r.session in sessions { return Refused(Conflict); }
        if |sessions| >= limits.maxSessions { return Refused(LimitExceeded); }
      }
      var entry := NewRecord(r.digest, CreateSession, r.session, None, None);
      match Classify(records, limits.maxOperations, r.op, entry)
      case Reused => return Refused(Conflict);
      case Exhausted => return Refused(LimitExceeded);
      case Replayed => return Operation(r.op, false);
      case Admitted =>
        OpenSession(r, entry, allocates);
        return Operation(r.op, true);
    }

    /** Allocation is local: it either makes the session usable or settles the request as failed. */
    method OpenSession(r: CreateRequest, entry: Record, allocates: bool)
      requires !entry.state.Terminal()
      modifies `records, `sessions
      ensures records == old(records)[r.op := if allocates then entry.SetTerminal(Completed, SessionAllocated, NoError)
                                              else entry.SetTerminal(Failed, NoResult, AllocationFailed)]
      ensures sessions == old(sessions)[r.session :=
        Session(r.stableDigest, if allocates then Ready else NonReusable, None, Pending)]
    {
      records := records[r.op := entry];
      sessions := sessions[r.session := Session(r.stableDigest, Creating, None, Pending)];
      if allocates {
        sessions := sessions[r.session := sessions[r.session].(state := Ready)];
        SetTerminal(r.op, Completed, SessionAllocated, NoError);
      } else {
        sessions := sessions[r.session := sessions[r.session].(state := NonReusable)];
        SetTerminal(r.op, Failed, NoResult, AllocationFailed);
      }
    }

    method AdmitPrompt(r: PromptRequest, alive: bool) returns (reply: Reply)
      modifies this
      ensures (View(), reply) == DirectProtocol.AdmitPrompt(old(View()), r, alive)
    {
      hide LifetimeValid;
      if !r.pinned || !continuity.Current? || !alive { return Refused(GenerationMismatch); }
      if r.timeout > limits.maxExecutionTimeout || r.textBytes > limits.maxPromptBytes {
        return Refused(LimitExceeded);
      }
      var entry := NewRecord(r.digest, Prompt, r.session, Some(r.invocation), None);
      if r.op in records {
        if records[r.op].SameIdentity(entry) { return Operation(r.op, false); }
        return Refused(Conflict);
      }
      if r.session !in sessions { return Refused(NotFound); }
      var session := sessions[r.session];
      if session.active.Some? || session.state.Busy? { return Refused(Refusal.Busy); }
      if !session.state.Ready? { return Refused(Conflict); }
      if !LifetimeValid(session, r) { return Refused(Conflict); }
      var willQueue := promptReservations > 0;
      var queued := if promptReservations - 1 > 0 then promptReservations - 1 else 0;
      if willQueue && queued >= limits.maxQueuedPrompts { return Refused(LimitExceeded); }
      if |records| >= limits.maxOperations { return Refused(LimitExceeded); }
      EnlistPrompt(r, entry, willQueue);
      return Operation(r.op, true);
    }

    /** The part of prompt admission that changes something. */
    method EnlistPrompt(r: PromptRequest, entry: Record, willQueue: bool)
      requires r.session in sessions
      modifies `records, `promptReservations, `sessions, `requests, `workers
      ensures records == old(records)[r.op := if willQueue then entry.(state := Queued) else entry]
      ensures promptReservations == old(promptReservations) + 1
      ensures sessions == old(sessions)[r.session := old(sessions)[r.session].(active := Some(r.op), state := SessionState.Busy)]
      ensures requests == old(requests)[r.op := r]
      ensures workers == old(workers)[r.op := Worker(Scheduled, false)]
    {
      records := records[r.op := entry];
      if willQueue { records := records[r.op := entry.(state := Queued)]; }
      promptReservations := promptReservations + 1;
      sessions := sessions[r.session := sessions[r.session].(active := Some(r.op), state := SessionState.Busy)];
      requests := requests[r.op := r];
      workers := workers[r.op := Worker(Scheduled, false)];
      assert records == old(records)[r.op := records[r.op]];
    }

    method AdmitCancel(r: CancelCall, alive: bool) returns (reply: Reply)
      modifies this
      ensures (View(), reply) == DirectProtocol.AdmitCancel(old(View()), r, alive)
    {
      if !r.pinned || !continuity.Current? || !alive { return Refused(GenerationMismatch); }
      if r.target !in records { return Refused(NotFound); }
      var target := records[r.target];
      if !target.kind.Prompt? { return Refused(Conflict); }
      var entry := NewRecord(r.digest, CancelRequest, target.session, None, Some(r.target));
      match Classify(records, limits.maxOperations, r.op, entry)
      case Reused => return Refused(Conflict);
      case Exhausted => return Refused(LimitExceeded);
      case Replayed => return Operation(r.op, false);
      case Admitted =>
        if (target.state.Accepted? || target.state.Queued?) && target.session in sessions {
          records := records[r.target := target.SetTerminal(Cancelled, CancelledPreDispatch, NoError)];
          sessions := sessions[target.session := sessions[target.session].(active := None, state := Ready)];
          ReleasePromptReservation(r.target);
          records := records[r.op := entry.SetTerminal(Completed, CancelReceipt(Cancelled, false), NoError)];
        } else if target.state.Terminal() {
          records := records[r.op := entry.SetTerminal(Completed, CancelReceipt(target.state, false), NoError)];
        } else {
          records := records[r.target := target.(state := Cancelling)];
          records := records[r.op := entry];
          workers := workers[r.op := Worker(Scheduled, false)];
        }
        return Operation(r.op, true);
    }

    method AdmitRetire(r: RetireCall, alive: bool) returns (reply: Reply)
      modifies this
      ensures (View(), reply) == DirectProtocol.AdmitRetire(old(View()), r, alive)
    {
      if !r.pinned || !continuity.Current? || !alive { return Refused(GenerationMismatch); }
      var entry := NewRecord(r.digest, RetireSession, r.session, None, None);
      if r.op in records {
        if records[r.op].SameIdentity(entry) { return Operation(r.op, false); }
        return Refused(Conflict);
      }
      if r.session !in sessions { return Refused(NotFound); }
      if sessions[r.session].state.Retired? { return Refused(Conflict); }
      if sessions[r.session].active.Some? { return Refused(Conflict); }
      if |records| >= limits.maxOperations { return Refused(LimitExceeded); }
      records := records[r.op := entry];
      sessions := sessions[r.session := sessions[r.session].(active := Some(r.op), state := Retiring)];
      workers := workers[r.op := Worker(Scheduled, false)];
      return Operation(r.op, true);
    }

    // -------------------------------------------------------------- shared pieces

    method ReleasePromptReservation(op: OperationId)
      modifies `promptReservations, `releasedReservations
      ensures View() == Release(old(View()), op)
      ensures unchanged(`records, `sessions, `requests, `workers, `turns, `tracked, `promptLock, `continuity)
    {
      if op in releasedReservations { return; }
      releasedReservations := releasedReservations + {op};
      promptReservations := promptReservations - 1;
    }

    method SetTerminal(op: OperationId, outcome: OperationState, result: Result, error: ErrorCode)
      requires op in records && outcome.Terminal()
      modifies `records
      ensures records == old(records)[op := old(records)[op].SetTerminal(outcome, result, error)]
    {
      if records[op].state.Terminal() {
        assert records[op := records[op]] == records;
        return;
      }
      records := records[op := records[op].(state := outcome, result := result, error := error)];
    }

    method FinishPrompt(op: OperationId, dispatched: bool)
      requires op in records && op in requests && requests[op].session in sessions
      modifies this
      ensures View() == DirectProtocol.FinishPrompt(old(View()), op, dispatched)
    {
      var sid := requests[op].session;
      var session := sessions[sid];
      if session.active == Some(op) { session := session.(active := None); }
      if !continuity.Current? {
        session := session.(state := SessionState.Lost);
      } else if dispatched && (records[op].state.Cancelled? || records[op].state.TimedOut? || records[op].state.InDoubt?) {
        session := session.(state := NonReusable);
      }
      sessions, workers := sessions[sid := session], workers - {op};
      if promptLock == Some(op) { promptLock := None; }
      ReleasePromptReservation(op);
    }

    method PopDone(op: OperationId)
      modifies `tracked
      ensures View() == DirectProtocol.PopDone(old(View()), op)
    {
      if op in turns && turns[op].phase.Done? { tracked := tracked - {op}; }
    }

    /** The sessions loop of `mark_generation_lost`. */
    method LoseSessions()
      modifies `sessions
      ensures sessions == LostSessions(old(sessions))
      ensures unchanged(`records, `requests, `workers, `turns, `tracked, `promptLock)
      ensures unchanged(`promptReservations, `releasedReservations, `continuity, `started, `unsettledAtLoss, `staleExpiries)
    {
      var todo := sessions.Keys;
      ghost var was := sessions;
      while todo != {}
        invariant todo <= was.Keys && sessions.Keys == was.Keys
        invariant forall sid | sid in was ::
          sessions[sid] == (if sid in todo || was[sid].state.Retired? then was[sid]
                            else was[sid].(state := SessionState.Lost))
        decreases todo
      {
        var sid :| sid in todo;
        if !sessions[sid].state.Retired? {
          sessions := sessions[sid := sessions[sid].(state := SessionState.Lost)];
        }
        todo := todo - {sid};
      }
    }

    /** The cancelling loop of `mark_generation_lost`, over the workers: every one but the caller, who
        goes on inside it. */
    method CancelWorkers(owner: Owner)
      modifies `workers
      ensures workers == CancelledWorkers(old(workers), owner)
      ensures unchanged(`records, `sessions, `requests, `turns, `tracked, `promptLock)
      ensures unchanged(`promptReservations, `releasedReservations, `continuity, `started, `unsettledAtLoss, `staleExpiries)
    {
      var todo := workers.Keys;
      ghost var was := workers;
      while todo != {}
        invariant todo <= was.Keys && workers.Keys == was.Keys
        invariant forall op | op in was ::
          workers[op] == (if op in todo then was[op]
                          else if owner == ByWorker(op) then Worker(Settling, false)
                          else was[op].(cancelled := true))
        decreases todo
      {
        var op :| op in todo;
        workers := workers[op := if owner == ByWorker(op) then Worker(Settling, false) else workers[op].(cancelled := true)];
        todo := todo - {op};
      }
    }

    /** The same loop over the collectors on record. */
    method CancelCollectors()
      modifies `turns
      ensures turns == CancelledTurns(old(turns), tracked)
      ensures unchanged(`records, `sessions, `requests, `workers, `tracked, `promptLock)
      ensures unchanged(`promptReservations, `releasedReservations, `continuity, `started, `unsettledAtLoss, `staleExpiries)
    {
      var todo := tracked * turns.Keys;
      ghost var was, all := turns, todo;
      while todo != {}
        invariant todo <= all && turns.Keys == was.Keys
        invariant forall op | op in was ::
          turns[op] == if op in all && op !in todo then was[op].(cancelled := true) else was[op]
        decreases todo
      {
        var op :| op in todo;
        turns := turns[op := turns[op].(cancelled := true)];
        todo := todo - {op};
      }
    }

    method Quarantine(owner: Owner, deferred: map<OperationId, Settlement>)
      modifies this
      ensures View() == DirectProtocol.Quarantine(old(View()), owner, deferred)
    {
      hide LostSessions, CancelledWorkers, CancelledTurns;
      LoseSessions();
      var unfinished := Unfinished(records);
      continuity := Draining(owner, unfinished - deferred.Keys, deferred, tracked);
      CancelWorkers(owner);
      CancelCollectors();
      tracked := {};
      unsettledAtLoss := set op | op in unfinished && records[op].kind.Prompt?;
    }

    method AbandonPrompt(op: OperationId, result: Result, error: ErrorCode)
      modifies this
      ensures View() == DirectProtocol.AbandonPrompt(old(View()), op, result, error)
    {
      PopDone(op);
      promptLock := None;
      Quarantine(ByWorker(op), map[op := Settlement(InDoubt, result, error)]);
    }

    // -------------------------------------------------------------- prompt workers

    method WorkerEnters(op: OperationId)
      requires PromptAt(View(), op, Scheduled) || PromptAt(View(), op, AwaitLock)
      modifies this
      ensures View() == EnterPrompt(old(View()), op)
    {
      hide DirectProtocol.FinishPrompt;
      var othersWait := exists o | o in workers :: o != op && workers[o] == Worker(AwaitLock, false);
      if promptLock.Some? || (workers[op].at.Scheduled? && othersWait) {
        workers := workers[op := Worker(AwaitLock, false)];
      } else if records[op].state.Terminal() {
        FinishPrompt(op, false);
      } else {
        promptLock := Some(op);
        records := records[op := records[op].(state := OperationState.Running)];
        turns := turns[op := Turn(Created, false)];
        tracked := tracked + {op};
        workers := workers[op := Worker(AwaitTurn, false)];
      }
    }

    method TurnBegins(op: OperationId)
      requires Enabled(View(), TurnStarts(op))
      modifies this
      ensures View() == Next(old(View()), TurnStarts(op))
    {
      turns := turns[op := Turn(TurnPhase.Running, false)];
      started := started + [op];
    }

    method TurnSettles(op: OperationId, outcome: TurnOutcome)
      requires Enabled(View(), TurnEnds(op, outcome))
      modifies this
      ensures View() == Next(old(View()), TurnEnds(op, outcome))
    {
      turns := turns[op := turns[op].(phase := Done(outcome))];
    }

    method Settle(op: OperationId, outcome: OperationState, result: Result, error: ErrorCode, use: SessionState,
                  instructions: InstructionState)
      requires op in records && op in requests && requests[op].session in sessions && outcome.Terminal()
      modifies this
      ensures View() == DirectProtocol.Settle(old(View()), op, outcome, result, error, use, instructions)
    {
      PopDone(op);
      var sid := requests[op].session;
      sessions := sessions[sid := sessions[sid].(active := None, state := use, instructions := instructions)];
      SetTerminal(op, outcome, result, error);
      FinishPrompt(op, true);
    }

    method SettleTerminal(op: OperationId, outcome: TurnOutcome)
      requires op in records && op in requests && requests[op].session in sessions && outcome.Terminal()
      modifies this
      ensures View() == DirectProtocol.SettleTerminal(old(View()), op, outcome)
    {
      var o := outcome.observation;
      var sid := requests[op].session;
      var instructions := sessions[sid].instructions;
      if !o.complete {
        Settle(op, Failed, RetainedEvidence(o), EvidenceLimit, NonReusable, instructions);
      } else if outcome.TurnFailed? {
        Settle(op, Failed, RetainedEvidence(o), NativeTurnFailed, NonReusable, instructions);
      } else if outcome.TurnCancelled? {
        Settle(op, Cancelled, RetainedEvidence(o), NoError, NonReusable, instructions);
      } else if records[op].state.Cancelling? {
        sessions := sessions[sid := sessions[sid].(active := None)];
        PopDone(op);
        Quarantine(ByWorker(op), map[op := Settlement(InDoubt, RetainedEvidence(o), CancellationStopMismatch)]);
      } else if !outcome.bindingMatches {
        sessions := sessions[sid := sessions[sid].(active := None)];
        AbandonPrompt(op, NoResult, PromptInDoubt);
      } else {
        Settle(op, Completed, PromptResult(o), NoError, Ready, RecordSubmission(instructions, requests[op]));
      }
    }

    method TurnSeen(op: OperationId)
      requires Enabled(View(), WorkerSeesTurn(op))
      modifies this
      ensures View() == Next(old(View()), WorkerSeesTurn(op))
    {
      var outcome := turns[op].phase.outcome;
      if outcome.RaisedTimeout? {
        records := records[op := records[op].(state := Cancelling)];
        workers := workers[op := Worker(SendDeadlineCancel, false)];
      } else if outcome.RaisedOther? {
        AbandonPrompt(op, NoResult, PromptInDoubt);
      } else if outcome.Unsettled? {
        AbandonPrompt(op, RetainedEvidence(outcome.observation), PromptInDoubt);
      } else {
        SettleTerminal(op, outcome);
      }
    }

    method DeadlineReached(op: OperationId)
      requires Enabled(View(), DeadlinePasses(op))
      modifies this
      ensures View() == Next(old(View()), DeadlinePasses(op))
    {
      records := records[op := records[op].(state := Cancelling)];
      workers := workers[op := Worker(SendDeadlineCancel, false)];
    }

    method DeadlineCancelReturned(op: OperationId, sent: bool)
      requires Enabled(View(), DeadlineCancelReturns(op, sent))
      modifies this
      ensures View() == Next(old(View()), DeadlineCancelReturns(op, sent))
    {
      if sent {
        workers := workers[op := Worker(DeadlineGrace, false)];
      } else {
        AbandonPrompt(op, NoResult, PromptInDoubt);
      }
    }

    method TurnSeenInGrace(op: OperationId)
      requires Enabled(View(), GraceSeesTurn(op))
      modifies this
      ensures View() == Next(old(View()), GraceSeesTurn(op))
    {
      var outcome := turns[op].phase.outcome;
      if outcome.RaisedTimeout? {
        Quarantine(ByWorker(op), map[op := Settlement(InDoubt, NoResult, DeadlineSettlementUnknown)]);
      } else if outcome.RaisedOther? {
        AbandonPrompt(op, NoResult, PromptInDoubt);
      } else if outcome.Unsettled? {
        AbandonPrompt(op, RetainedEvidence(outcome.observation), PromptInDoubt);
      } else if outcome.TurnCancelled? {
        Settle(op, TimedOut, RetainedEvidence(outcome.observation), ExecutionDeadline, NonReusable,
               sessions[requests[op].session].instructions);
      } else {
        Quarantine(ByWorker(op),
                   map[op := Settlement(InDoubt, RetainedEvidence(outcome.observation), DeadlineStopMismatch)]);
      }
    }

    method GracePassed(op: OperationId)
      requires Enabled(View(), GracePasses(op))
      modifies this
      ensures View() == Next(old(View()), GracePasses(op))
    {
      Quarantine(ByWorker(op), map[op := Settlement(InDoubt, NoResult, DeadlineSettlementUnknown)]);
    }

    // -------------------------------------------------------------- cancel and retire workers

    method CancelBegins(op: OperationId)
      requires Enabled(View(), CancelStarts(op))
      modifies this
      ensures View() == Next(old(View()), CancelStarts(op))
    {
      records := records[op := records[op].(state := OperationState.Running)];
      workers := workers[op := Worker(SendCancel, false)];
    }

    method CancelReturned(op: OperationId, sent: bool)
      requires Enabled(View(), CancelReturns(op, sent))
      modifies this
      ensures View() == Next(old(View()), CancelReturns(op, sent))
    {
      if sent {
        workers := workers[op := Worker(AwaitTarget, false)];
      } else {
        var sid := records[op].session;
        sessions := sessions[sid := sessions[sid].(state := NonReusable)];
        Quarantine(ByWorker(op), map[
          records[op].target.value := Settlement(InDoubt, NoResult, CancelTransportFailed),
          op := Settlement(Failed, NoResult, CancelFailed)]);
      }
    }

    method TargetSettled(op: OperationId)
      requires Enabled(View(), CancelSeesTarget(op))
      modifies this
      ensures View() == Next(old(View()), CancelSeesTarget(op))
    {
      SetTerminal(op, Completed, CancelReceipt(records[records[op].target.value].state, true), NoError);
      workers := workers - {op};
    }

    method CancelGracePassed(op: OperationId)
      requires Enabled(View(), CancelGracePasses(op))
      modifies this
      ensures View() == Next(old(View()), CancelGracePasses(op))
    {
      var sid := records[op].session;
      var target := records[op].target.value;
      if records[target].state.Terminal() { staleExpiries := staleExpiries + {op}; }
      sessions := sessions[sid := sessions[sid].(state := NonReusable)];
      Quarantine(ByWorker(op), map[
        target := Settlement(InDoubt, NoResult, CancellationSettlementUnknown),
        op := Settlement(Completed, CancelReceipt(InDoubt, true), NoError)]);
    }

    method RetireBegins(op: OperationId)
      requires Enabled(View(), RetireStarts(op))
      modifies this
      ensures View() == Next(old(View()), RetireStarts(op))
    {
      records := records[op := records[op].(state := OperationState.Running)];
      workers := workers[op := Worker(AwaitRetire, false)];
    }

    method RetireReturned(op: OperationId, settled: bool, destroyed: bool)
      requires ControlAt(View(), op, RetireSession, AwaitRetire)
      modifies this
      ensures View() == RetireFinished(old(View()), op, settled, destroyed)
    {
      hide DirectProtocol.FinishRetire, DirectProtocol.Quarantine;
      if settled {
        var sid := records[op].session;
        sessions := sessions[sid := sessions[sid].(state := Retired)];
        SetTerminal(op, Completed, SessionRetired(destroyed), NoError);
        FinishRetire(op);
      } else {
        Quarantine(ByWorker(op), map[op := Settlement(InDoubt, NoResult, RetirementInDoubt)]);
      }
    }

    method FinishRetire(op: OperationId)
      requires op in records && records[op].session in sessions
      modifies `sessions, `workers
      ensures View() == DirectProtocol.FinishRetire(old(View()), op)
    {
      var sid := records[op].session;
      var session := sessions[sid];
      if session.active == Some(op) { session := session.(active := None); }
      sessions := sessions[sid := session];
      workers := workers - {op};
    }

    // -------------------------------------------------------------- loss and cleanup

    method Unwind(op: OperationId)
      requires UnwindReady(View(), op)
      modifies this
      ensures View() == DirectProtocol.Unwind(old(View()), op)
    {
      if workers[op].at.Scheduled? {
        workers := workers - {op};
      } else if records[op].kind.Prompt? {
        if op in requests {
          var dispatched := !workers[op].at.AwaitLock?;
          PopDone(op);
          FinishPrompt(op, dispatched);
        }
      } else if records[op].kind.RetireSession? {
        FinishRetire(op);
      } else {
        workers := workers - {op};
      }
    }

    method WorkerUnwinds(op: OperationId)
      requires Enabled(View(), CancelledWorkerResumes(op))
      modifies this
      ensures View() == Next(old(View()), CancelledWorkerResumes(op))
    {
      Unwind(op);
    }

    method LoseGeneration()
      requires Enabled(View(), GenerationLost)
      modifies this
      ensures View() == Next(old(View()), GenerationLost)
    {
      Quarantine(External, map[]);
    }

    method CleanupDrains()
      requires Enabled(View(), TasksDrained)
      modifies this
      ensures View() == Next(old(View()), TasksDrained)
    {
      continuity := ToStopping(continuity);
    }

    /** The loop over the doomed records. */
    method PublishDoomed(failed: bool)
      requires Publishable(View()) && DoomedAreRecords(View())
      modifies `records
      ensures records.Keys == old(records).Keys
      ensures forall op | op in old(records) ::
        records[op] == (if op in continuity.doomed then PublishedRecord(old(View()), op, failed) else old(records)[op])
    {
      ghost var before := View();
      var todo := continuity.doomed;
      while todo != {}
        invariant todo <= continuity.doomed && records.Keys == before.records.Keys
        invariant forall op | op in before.records ::
          records[op] == (if op in continuity.doomed && op !in todo then PublishedRecord(before, op, failed)
                          else before.records[op])
        decreases todo
      {
        var op :| op in todo;
        SetTerminal(op, InDoubt, Evidence(op), ContinuityLost);
        todo := todo - {op};
      }
    }

    static lemma SamePublication(a: State, b: State, op: OperationId, failed: bool)
      requires Publishable(a) && op in a.records && op in b.records && a.records[op] == b.records[op]
      requires a.continuity == b.continuity && a.turns == b.turns
      ensures PublishedRecord(a, op, failed) == PublishedRecord(b, op, failed)
      ensures a.records[op].state.Terminal() ==> PublishedRecord(a, op, failed) == a.records[op]
    {
    }

    method SettleDeferred(op: OperationId, failed: bool)
      requires Publishable(View()) && DoomedAreRecords(View())
      requires op in records && op in continuity.deferred
      modifies `records
      ensures records == old(records)[op := PublishedRecord(old(View()), op, failed)]
    {
      var d := continuity.deferred[op];
      var result := if d.result.NoResult? then Evidence(op) else d.result;
      if failed {
        SetTerminal(op, InDoubt, result, CleanupSettlementUnknown);
      } else {
        SetTerminal(op, d.state, result, d.error);
      }
    }

    /** The loop over the deferred settlements; settled records are skipped. */
    method PublishDeferred(failed: bool)
      requires Publishable(View()) && DoomedAreRecords(View())
      modifies `records
      ensures records.Keys == old(records).Keys
      ensures forall op | op in old(records) ::
        records[op] == (if op in continuity.deferred then PublishedRecord(old(View()), op, failed) else old(records)[op])
    {
      ghost var before := View();
      var todo := continuity.deferred.Keys;
      while todo != {}
        invariant todo <= continuity.deferred.Keys && records.Keys == before.records.Keys
        invariant forall op | op in before.records ::
          records[op] == (if op in continuity.deferred && op !in todo then PublishedRecord(before, op, failed)
                          else before.records[op])
        decreases todo
      {
        var op :| op in todo;
        SamePublication(before, View(), op, failed);
        if !records[op].state.Terminal() { SettleDeferred(op, failed); }
        hide PublishedRecord;
        todo := todo - {op};
      }
    }

    function Evidence(op: OperationId): Result
      requires op in records && continuity.Stopping?
      reads this
    {
      if !records[op].kind.Prompt? then NoResult
      else if op in continuity.held && op in turns && turns[op].phase.Done?
           && (turns[op].phase.outcome.Terminal() || turns[op].phase.outcome.Unsettled?) then
        RetainedEvidence(turns[op].phase.outcome.observation)
      else RetainedEvidence(NOTHING_OBSERVED)
    }

    method PublishRecords(failed: bool)
      requires Publishable(View()) && DoomedAreRecords(View())
      modifies `records
      ensures records == map op | op in old(records) :: PublishedRecord(old(View()), op, failed)
    {
      ghost var before := View();
      PublishDoomed(failed);
      forall op | op in records && op !in continuity.doomed
        ensures PublishedRecord(View(), op, failed) == PublishedRecord(before, op, failed)
      {
        SamePublication(before, View(), op, failed);
      }
      hide PublishedRecord;
      PublishDeferred(failed);
    }

    method Publish(stopSettled: bool, failed: bool)
      requires Publishable(View()) && DoomedAreRecords(View())
      modifies this
      ensures View() == DirectProtocol.Publish(old(View()), stopSettled, failed)
    {
      var owner := continuity.owner;
      PublishRecords(failed);
      continuity := Closed(stopSettled, failed);
      if owner.ByWorker? && owner.op in workers && owner.op in records && records[owner.op].session in sessions
         && (owner.op in requests ==> requests[owner.op].session in sessions) {
        Unwind(owner.op);
      }
    }

    method StopReturned(failed: bool)
      requires Enabled(View(), StopReturns(failed)) && DoomedAreRecords(View())
      modifies this
      ensures View() == Next(old(View()), StopReturns(failed))
    {
      Publish(true, failed);
    }

    method CallerCancelled()
      requires Enabled(View(), DrainingCallerCancelled) && DoomedAreRecords(View())
      modifies this
      ensures View() == Next(old(View()), DrainingCallerCancelled)
    {
      continuity := ToStopping(continuity);
      Publish(false, false);
    }

    ghost static predicate DoomedAreRecords(s: State) {
      s.continuity.Draining? || s.continuity.Stopping? ==>
        && (forall op | op in s.continuity.doomed :: op in s.records && op !in s.continuity.deferred)
        && s.continuity.deferred.Keys <= s.records.Keys
    }

    static lemma OwnersAreRecords(s: State)
      requires Inv(s)
      ensures DoomedAreRecords(s)
    {
      if s.continuity.Draining? || s.continuity.Stopping? {
        forall op | op in s.continuity.doomed ensures op in s.records && op !in s.continuity.deferred {
          assert HasOwner(s, op);
        }
        forall d | d in s.continuity.deferred ensures d in s.records { assert SettlementOk(s, d); }
      }
    }

    // -------------------------------------------------------------- any schedule

    /** Any event, in its turn: possible or not, the service stays valid. */
    method Perform(e: Event)
      requires Valid()
      modifies this
      ensures Valid() && View() == Step(old(View()), e)
    {
      StepKeeps(View(), e);
      OwnersAreRecords(View());
      hide Inv, Progress, Next, Enabled, DoomedAreRecords;
      if Enabled(View(), e) { Dispatch(e); }
    }

    method Dispatch(e: Event)
      requires Enabled(View(), e) && DoomedAreRecords(View())
      modifies this
      ensures View() == Next(old(View()), e)
    {
      hide Next, Enabled, DoomedAreRecords;
      if e.Create? || e.SubmitPrompt? || e.SubmitCancel? || e.SubmitRetire? {
        DispatchAdmission(e);
      } else if OfATask(e) {
        DispatchTask(e);
      } else {
        match e
        case CancelledWorkerResumes(op) => WorkerUnwinds(op);
        case GenerationLost => LoseGeneration();
        case TasksDrained => CleanupDrains();
        case DrainingCallerCancelled => CallerCancelled();
        case StopReturns(failed) => StopReturned(failed);
      }
    }

    method DispatchAdmission(e: Event)
      requires Enabled(View(), e) && (e.Create? || e.SubmitPrompt? || e.SubmitCancel? || e.SubmitRetire?)
      modifies this
      ensures View() == Next(old(View()), e)
    {
      AdmissionNext(View(), e);
      hide Next, Enabled;
      match e
      case Create(r, alive, allocates) => var _ := AdmitCreate(r, alive, allocates);
      case SubmitPrompt(r, alive) => var _ := AdmitPrompt(r, alive);
      case SubmitCancel(r, alive) => var _ := AdmitCancel(r, alive);
      case SubmitRetire(r, alive) => var _ := AdmitRetire(r, alive);
    }

    predicate OfATask(e: Event) {
      && !e.Create? && !e.SubmitPrompt? && !e.SubmitCancel? && !e.SubmitRetire? && !e.CancelledWorkerResumes?
      && !e.GenerationLost? && !e.TasksDrained? && !e.DrainingCallerCancelled? && !e.StopReturns?
    }

    method DispatchTask(e: Event)
      requires Enabled(View(), e) && OfATask(e)
      modifies this
      ensures View() == Next(old(View()), e)
    {
      hide Next, Enabled;
      if OfACancellation(e) {
        DispatchCancellation(e);
      } else if e.RetireStarts? || e.RetireReturns? {
        DispatchRetirement(e);
      } else {
        DispatchPrompt(e);
      }
    }

    predicate OfACancellation(e: Event) {
      e.CancelStarts? || e.CancelReturns? || e.CancelSeesTarget? || e.CancelGracePasses?
    }

    method DispatchPrompt(e: Event)
      requires Enabled(View(), e) && OfATask(e) && !OfACancellation(e) && !e.RetireStarts? && !e.RetireReturns?
      modifies this
      ensures View() == Next(old(View()), e)
    {
      TaskNext(View(), e);
      hide Next, Enabled;
      match e
      case Enter(op) => WorkerEnters(op);
      case TurnStarts(op) => TurnBegins(op);
      case TurnEnds(op, outcome) => TurnSettles(op, outcome);
      case WorkerSeesTurn(op) => TurnSeen(op);
      case DeadlinePasses(op) => DeadlineReached(op);
      case DeadlineCancelReturns(op, sent) => DeadlineCancelReturned(op, sent);
      case GraceSeesTurn(op) => TurnSeenInGrace(op);
      case GracePasses(op) => GracePassed(op);
    }

    method DispatchCancellation(e: Event)
      requires Enabled(View(), e) && OfACancellation(e)
      modifies this
      ensures View() == Next(old(View()), e)
    {
      hide Next, Enabled;
      match e
      case CancelStarts(op) => CancelBegins(op);
      case CancelReturns(op, sent) => CancelReturned(op, sent);
      case CancelSeesTarget(op) => TargetSettled(op);
      case CancelGracePasses(op) => CancelGracePassed(op);
    }

    method DispatchRetirement(e: Event)
      requires Enabled(View(), e) && (e.RetireStarts? || e.RetireReturns?)
      modifies this
      ensures View() == Next(old(View()), e)
    {
      TaskNext(View(), e);
      hide Next, Enabled;
      match e
      case RetireStarts(op) => RetireBegins(op);
      case RetireReturns(op, settled, destroyed) => RetireReturned(op, settled, destroyed);
    }

    static lemma AdmissionNext(s: State, e: Event)
      requires Enabled(s, e)
      ensures e.Create? ==> Next(s, e) == DirectProtocol.AdmitCreate(s, e.create, e.alive, e.allocates).0
      ensures e.SubmitPrompt? ==> Next(s, e) == DirectProtocol.AdmitPrompt(s, e.prompt, e.alive).0
      ensures e.SubmitCancel? ==> Next(s, e) == DirectProtocol.AdmitCancel(s, e.cancel, e.alive).0
      ensures e.SubmitRetire? ==> Next(s, e) == DirectProtocol.AdmitRetire(s, e.retire, e.alive).0
    {
    }

    static lemma TaskNext(s: State, e: Event)
      requires Enabled(s, e)
      ensures e.Enter? ==> (PromptAt(s, e.op, Scheduled) || PromptAt(s, e.op, AwaitLock)) && Next(s, e) == EnterPrompt(s, e.op)
      ensures e.RetireReturns? ==> ControlAt(s, e.op, RetireSession, AwaitRetire)
                                   && Next(s, e) == RetireFinished(s, e.op, e.settled, e.destroyed)
    {
    }

    /** The service under an arbitrary schedule is a run of the protocol. */
    method Serve(events: seq<Event>)
      requires Valid()
      modifies this
      ensures Valid() && View() == Run(old(View()), events)
    {
      ghost var before := View();
      for i := 0 to |events|
        invariant Valid() && Run(View(), events[i..]) == Run(before, events)
      {
        assert events[i..][0] == events[i] && events[i..][1..] == events[i + 1..];
        Perform(events[i]);
      }
    }
  }
}
