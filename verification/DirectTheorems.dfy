/** The promises of the direct service, over every run. */
module DirectTheorems {
  import opened Basics
  import opened DirectState
  import opened DirectProtocol
  import opened DirectInvariants
  import opened DirectPatches
  import opened DirectSteps
  import opened DirectLoss

  // ---------------------------------------------------------------- one step

  lemma SettleTerminalKeeps(s: State, op: OperationId)
    requires Inv(s) && PromptWithTurn(s, op, AwaitTurn) && s.turns[op].phase.outcome.Terminal()
    ensures Kept(s, SettleTerminal(s, op, s.turns[op].phase.outcome))
  {
    UndisturbedWorker(s, op);
    hide Shape, Tasks, Owned, Truth, Sessions, Reserved, Kept, Settle, Quarantine, AbandonPrompt;
    var sid := s.requests[op].session;
    var outcome := s.turns[op].phase.outcome;
    var o := outcome.observation;
    var x := s.sessions[sid];
    var inactive := s.(sessions := s.sessions[sid := x.(active := None)]);
    if !o.complete {
      SettleKeeps(s, op, Failed, RetainedEvidence(o), EvidenceLimit, NonReusable, x.instructions);
    } else if outcome.TurnFailed? {
      SettleKeeps(s, op, Failed, RetainedEvidence(o), NativeTurnFailed, NonReusable, x.instructions);
    } else if outcome.TurnCancelled? {
      SettleKeeps(s, op, Cancelled, RetainedEvidence(o), NoError, NonReusable, x.instructions);
    } else if s.records[op].state.Cancelling? {
      HoldAndLoseKeeps(s, PopDone(inactive, op), op, AwaitTurn,
                       Settlement(InDoubt, RetainedEvidence(o), CancellationStopMismatch));
    } else if !outcome.bindingMatches {
      AbandonKeeps(s, inactive.sessions, op, AwaitTurn, NoResult, PromptInDoubt);
    } else {
      SettleKeeps(s, op, Completed, PromptResult(o), NoError, Ready, RecordSubmission(x.instructions, s.requests[op]));
    }
  }

  lemma ResumeTurnKeeps(s: State, op: OperationId)
    requires Inv(s) && PromptWithTurn(s, op, AwaitTurn)
    ensures Kept(s, ResumeTurn(s, op))
  {
    UndisturbedWorker(s, op);
    var outcome := s.turns[op].phase.outcome;
    if outcome.RaisedTimeout? {
      DeadlineKeeps(s, op);
    } else if outcome.Unsettled? {
      AbandonKeeps(s, s.sessions, op, AwaitTurn, RetainedEvidence(outcome.observation), PromptInDoubt);
      assert s.(sessions := s.sessions) == s;
    } else if outcome.RaisedOther? {
      AbandonKeeps(s, s.sessions, op, AwaitTurn, NoResult, PromptInDoubt);
      assert s.(sessions := s.sessions) == s;
    } else {
      SettleTerminalKeeps(s, op);
    }
  }

  lemma ResumeGraceKeeps(s: State, op: OperationId)
    requires Inv(s) && PromptWithTurn(s, op, DeadlineGrace)
    ensures Kept(s, ResumeGrace(s, op))
  {
    UndisturbedWorker(s, op);
    assert s.(sessions := s.sessions) == s;
    var outcome := s.turns[op].phase.outcome;
    if outcome.RaisedTimeout? {
      HoldAndLoseKeeps(s, s, op, DeadlineGrace, Settlement(InDoubt, NoResult, DeadlineSettlementUnknown));
    } else if outcome.RaisedOther? {
      AbandonKeeps(s, s.sessions, op, DeadlineGrace, NoResult, PromptInDoubt);
    } else if outcome.Unsettled? {
      AbandonKeeps(s, s.sessions, op, DeadlineGrace, RetainedEvidence(outcome.observation), PromptInDoubt);
    } else if outcome.TurnCancelled? {
      SettleKeeps(s, op, TimedOut, RetainedEvidence(outcome.observation), ExecutionDeadline, NonReusable,
                  s.sessions[s.requests[op].session].instructions);
    } else {
      HoldAndLoseKeeps(s, s, op, DeadlineGrace,
                       Settlement(InDoubt, RetainedEvidence(outcome.observation), DeadlineStopMismatch));
    }
  }

  lemma WorkerStepKeeps(s: State, e: Event)
    requires Inv(s) && Enabled(s, e)
    requires e.Enter? || e.DeadlinePasses? || e.DeadlineCancelReturns? || e.GracePasses?
          || e.WorkerSeesTurn? || e.GraceSeesTurn?
    ensures Kept(s, Next(s, e))
  {
    hide Inv, Progress, EnterPrompt, ResumeTurn, ResumeGrace, ReachDeadline, Quarantine, AbandonPrompt;
    match e
    case Enter(op) => EnterKeeps(s, op);
    case WorkerSeesTurn(op) => ResumeTurnKeeps(s, op);
    case DeadlinePasses(op) => DeadlineKeeps(s, op);
    case GraceSeesTurn(op) => ResumeGraceKeeps(s, op);
    case DeadlineCancelReturns(op, sent) =>
      UndisturbedWorker(s, op);
      if sent {
        CancelSentKeeps(s, op);
      } else {
        AbandonKeeps(s, s.sessions, op, SendDeadlineCancel, NoResult, PromptInDoubt);
        assert s.(sessions := s.sessions) == s;
      }
    case GracePasses(op) =>
      UndisturbedWorker(s, op);
      HoldAndLoseKeeps(s, s, op, DeadlineGrace, Settlement(InDoubt, NoResult, DeadlineSettlementUnknown));
  }

  lemma ControlStepKeeps(s: State, e: Event)
    requires Inv(s) && Enabled(s, e)
    requires e.CancelStarts? || e.CancelReturns? || e.CancelSeesTarget? || e.CancelGracePasses?
          || e.RetireStarts? || e.RetireReturns?
    ensures Kept(s, Next(s, e))
  {
    hide Inv, Progress;
    match e
    case CancelStarts(op) => StartKeeps(s, op, CancelRequest);
    case RetireStarts(op) => StartKeeps(s, op, RetireSession);
    case CancelSeesTarget(op) => TargetDoneKeeps(s, op);
    case CancelReturns(op, sent) =>
      if sent {
        CancelSentKeeps(s, op);
      } else {
        CancelSendFailureKeeps(s, op);
      }
    case CancelGracePasses(op) => TargetExpiredKeeps(s, op);
    case RetireReturns(op, settled, destroyed) =>
      if settled {
        RetireDoneKeeps(s, op, destroyed);
      } else {
        UndisturbedWorker(s, op);
        HoldAndLoseKeeps(s, s, op, AwaitRetire, Settlement(InDoubt, NoResult, RetirementInDoubt));
      }
  }

  lemma CancelSendFailureKeeps(s: State, op: OperationId)
    requires Inv(s) && ControlAt(s, op, CancelRequest, SendCancel)
    ensures Kept(s, ManualCancelSent(s, op, false))
  {
    UndisturbedWorker(s, op);
    var target := s.records[op].target.value;
    var deferred := map[target := Settlement(InDoubt, NoResult, CancelTransportFailed),
                        op := Settlement(Failed, NoResult, CancelFailed)];
    CancelLossKeeps(s, op, SendCancel, target, deferred, {});
    assert Lose(MarkNonReusable(s, s.records[op].session), ByWorker(op), deferred, {}) == ManualCancelSent(s, op, false);
  }

  lemma ExpiredForm(s: State, op: OperationId)
    requires ControlAt(s, op, CancelRequest, AwaitTarget) && s.staleExpiries == {}
    requires s.records[op].target.Some? && s.records[op].target.value in s.records
    ensures
      var target := s.records[op].target.value;
      TargetExpired(s, op)
      == Lose(MarkNonReusable(s, s.records[op].session), ByWorker(op),
              map[target := Settlement(InDoubt, NoResult, CancellationSettlementUnknown),
                  op := Settlement(Completed, CancelReceipt(InDoubt, true), NoError)],
              if s.records[target].state.Terminal() then {op} else {})
  {
    hide LostSessions, CancelledWorkers, CancelledTurns, Unfinished;
  }

  lemma TargetExpiredKeeps(s: State, op: OperationId)
    requires Inv(s) && ControlAt(s, op, CancelRequest, AwaitTarget)
    ensures Kept(s, TargetExpired(s, op))
  {
    UndisturbedWorker(s, op);
    var target := s.records[op].target.value;
    hide Shape, Tasks, Owned, Sessions, Reserved, Kept, Lose, TargetExpired, MarkNonReusable;
    ExpiredForm(s, op);
    CancelLossKeeps(s, op, AwaitTarget, target,
                    map[target := Settlement(InDoubt, NoResult, CancellationSettlementUnknown),
                        op := Settlement(Completed, CancelReceipt(InDoubt, true), NoError)],
                    if s.records[target].state.Terminal() then {op} else {});
  }

  lemma CleanupStepKeeps(s: State, e: Event)
    requires Inv(s) && Enabled(s, e)
    requires e.CancelledWorkerResumes? || e.GenerationLost? || e.TasksDrained? || e.DrainingCallerCancelled? || e.StopReturns?
    ensures Kept(s, Next(s, e))
  {
    hide Inv, Progress, Unwind, Quarantine, Publish;
    match e
    case CancelledWorkerResumes(op) => UnwindKeeps(s, op);
    case GenerationLost => ExternalLossKeeps(s);
    case TasksDrained => DrainedKeeps(s);
    case DrainingCallerCancelled =>
      DrainedKeeps(s);
      var drained := s.(continuity := ToStopping(s.continuity));
      PublishKeeps(drained, false, false);
      ProgressTransitive(s, drained, Next(s, e));
    case StopReturns(failed) => PublishKeeps(s, true, failed);
  }

  lemma StepKeeps(s: State, e: Event)
    requires Inv(s)
    ensures Kept(s, Step(s, e))
  {
    hide Inv, Progress, Next;
    if !Enabled(s, e) {
      NothingKeeps(s);
    } else if e.Create? || e.SubmitPrompt? || e.SubmitCancel? || e.SubmitRetire? {
      AdmissionStepKeeps(s, e);
    } else if e.TurnStarts? || e.TurnEnds? {
      TurnStepKeeps(s, e);
    } else if e.CancelledWorkerResumes? || e.GenerationLost? || e.TasksDrained? || e.DrainingCallerCancelled?
              || e.StopReturns? {
      CleanupStepKeeps(s, e);
    } else if e.CancelStarts? || e.CancelReturns? || e.CancelSeesTarget? || e.CancelGracePasses?
              || e.RetireStarts? || e.RetireReturns? {
      ControlStepKeeps(s, e);
    } else {
      WorkerStepKeeps(s, e);
    }
  }

  lemma NothingKeeps(s: State)
    requires Inv(s)
    ensures Kept(s, s)
  {
    forall op | op in s.records ensures RecordProgress(s, s, op) { }
    forall sid | sid in s.sessions ensures SessionProgress(s, s, sid) { }
  }

  lemma AdmissionStepKeeps(s: State, e: Event)
    requires Inv(s) && (e.Create? || e.SubmitPrompt? || e.SubmitCancel? || e.SubmitRetire?)
    ensures Enabled(s, e) && Kept(s, Next(s, e))
  {
    match e
    case Create(r, alive, allocates) => CreateKeeps(s, r, alive, allocates);
    case SubmitPrompt(r, alive) => PromptKeeps(s, r, alive);
    case SubmitCancel(r, alive) => CancelKeeps(s, r, alive);
    case SubmitRetire(r, alive) => RetireKeeps(s, r, alive);
  }

  lemma TurnStepKeeps(s: State, e: Event)
    requires Inv(s) && Enabled(s, e) && (e.TurnStarts? || e.TurnEnds?)
    ensures Kept(s, Next(s, e))
  {
    match e
    case TurnStarts(op) => TurnStartKeeps(s, op);
    case TurnEnds(op, outcome) => TurnEndKeeps(s, op, outcome);
  }

  // ---------------------------------------------------------------- every run

  lemma {:induction false} RunKeeps(s: State, events: seq<Event>)
    requires Inv(s)
    ensures Kept(s, Run(s, events))
    decreases |events|
  {
    if events == [] {
      NothingKeeps(s);
    } else {
      StepKeeps(s, events[0]);
      hide Inv, Progress;
      RunKeeps(Step(s, events[0]), events[1..]);
      ProgressTransitive(s, Step(s, events[0]), Run(s, events));
    }
  }

  lemma {:induction false} RunAppends(s: State, first: seq<Event>, rest: seq<Event>)
    ensures Run(s, first + rest) == Run(Run(s, first), rest)
    decreases |first|
  {
    if first == [] {
      assert first + rest == rest;
    } else {
      assert (first + rest)[0] == first[0] && (first + rest)[1..] == first[1..] + rest;
      RunAppends(Step(s, first[0]), first[1..], rest);
    }
  }

  lemma Reachable(limits: Limits, events: seq<Event>)
    ensures Inv(Run(Init(limits), events))
  {
    InitHolds(limits);
    RunKeeps(Init(limits), events);
  }

  /** Whatever happens after `events`, what they established only progresses. */
  lemma LaterOnlyProgresses(limits: Limits, events: seq<Event>, later: seq<Event>)
    ensures Inv(Run(Init(limits), events)) && Inv(Run(Init(limits), events + later))
    ensures Progress(Run(Init(limits), events), Run(Init(limits), events + later))
  {
    Reachable(limits, events);
    RunKeeps(Run(Init(limits), events), later);
    RunAppends(Init(limits), events, later);
  }

  // ---------------------------------------------------------------- the promises

  /** At most once and forever: an operation ID keeps one identity, and once its outcome is
      terminal every later state shows the same state, result and error. */
  lemma OutcomesArePermanent(limits: Limits, events: seq<Event>, later: seq<Event>, op: OperationId)
    requires op in Run(Init(limits), events).records
    ensures op in Run(Init(limits), events + later).records
    ensures
      var before := Run(Init(limits), events).records[op];
      var after := Run(Init(limits), events + later).records[op];
      after.SameIdentity(before) && (before.state.Terminal() ==> after == before)
  {
    LaterOnlyProgresses(limits, events, later);
    assert RecordProgress(Run(Init(limits), events), Run(Init(limits), events + later), op);
  }

  /** Every unsettled record has somebody who will settle it: its own undisturbed worker
      while continuity holds, then the quarantining call; when that call has published,
      every record is settled. */
  lemma EveryRecordHasAnOwner(limits: Limits, events: seq<Event>, op: OperationId)
    requires op in Run(Init(limits), events).records
    ensures
      var s := Run(Init(limits), events);
      !s.records[op].state.Terminal() ==>
        match s.continuity
        case Current => op in s.workers && !s.workers[op].cancelled
        case Draining(_, doomed, deferred, _) => (op in doomed) != (op in deferred)
        case Stopping(_, doomed, deferred, _) => (op in doomed) != (op in deferred)
        case Closed(_, _) => false
  {
    Reachable(limits, events);
    var s := Run(Init(limits), events);
    assert HasOwner(s, op);
    if op in s.workers { assert WorkerOk(s, op); }
  }

  /** Global exclusion: two turns are never unfinished at once, no operation starts a turn
      twice, and none starts after continuity is lost. */
  lemma TurnsAreSerialized(limits: Limits, events: seq<Event>, later: seq<Event>)
    ensures
      var s := Run(Init(limits), events);
      && (forall a, b | Unfinished1(s, a) && Unfinished1(s, b) :: a == b)
      && (forall i, j | 0 <= i < j < |s.started| :: s.started[i] != s.started[j])
      && (!s.continuity.Current? ==> Run(Init(limits), events + later).started == s.started)
  {
    LaterOnlyProgresses(limits, events, later);
  }

  /** Truthful uncertainty: a prompt is IN_DOUBT only after a loss, with evidence of what was
      observed ... */
  lemma UncertaintyFollowsALoss(limits: Limits, events: seq<Event>, op: OperationId)
    requires op in Run(Init(limits), events).requests && op in Run(Init(limits), events).records
    ensures
      var s := Run(Init(limits), events);
      s.records[op].state.InDoubt? ==>
        s.continuity.Closed? && op in s.unsettledAtLoss && s.records[op].result.RetainedEvidence?
  {
    Reachable(limits, events);
    assert PromptTruth(Run(Init(limits), events), op);
  }

  /** ... and every prompt not settled at the loss ends IN_DOUBT and nothing else. */
  lemma UnsettledPromptsEndInDoubt(limits: Limits, events: seq<Event>, later: seq<Event>, op: OperationId)
    requires op in Run(Init(limits), events).requests && op in Run(Init(limits), events).records
    requires !Run(Init(limits), events).continuity.Current?
    requires !Run(Init(limits), events).records[op].state.Terminal()
    ensures op in Run(Init(limits), events + later).records
    ensures
      var f := Run(Init(limits), events + later);
      if f.continuity.Closed? then f.records[op].state.InDoubt? else !f.records[op].state.Terminal()
  {
    LaterOnlyProgresses(limits, events, later);
    var s := Run(Init(limits), events);
    var f := Run(Init(limits), events + later);
    assert RecordProgress(s, f, op);
    assert HasOwner(s, op) && PromptTruth(s, op);
    assert PromptTruth(f, op);
  }

  /** Nothing at all is published between the loss and the end of the quarantining call. */
  lemma NothingPublishedBeforeCleanup(limits: Limits, events: seq<Event>, later: seq<Event>, op: OperationId)
    requires op in Run(Init(limits), events).records
    requires !Run(Init(limits), events).continuity.Current?
    requires !Run(Init(limits), events + later).continuity.Closed?
    ensures op in Run(Init(limits), events + later).records
    ensures Run(Init(limits), events + later).records[op].state.Terminal()
        <==> Run(Init(limits), events).records[op].state.Terminal()
  {
    LaterOnlyProgresses(limits, events, later);
    assert RecordProgress(Run(Init(limits), events), Run(Init(limits), events + later), op);
  }

  /** At the `i`-th event a quarantining call made from outside is cancelled, its tasks drained. */
  ghost predicate CallerCancelledAt(s: State, events: seq<Event>, i: nat)
    requires i < |events|
  {
    events[i].DrainingCallerCancelled? && Enabled(Run(s, events[..i]), events[i])
  }

  lemma ShiftedCancellation(s: State, events: seq<Event>, i: nat)
    requires 0 < i < |events|
    ensures CallerCancelledAt(s, events, i) == CallerCancelledAt(Step(s, events[0]), events[1..], i - 1)
  {
    hide Next, Enabled;
    assert events[..i][0] == events[0] && events[..i][1..] == events[1..][..i - 1];
  }

  /** Such a cancellation needs a generation that is still draining, and closes it at once. */
  lemma CancellationCloses(s: State, events: seq<Event>)
    requires events != [] && CallerCancelledAt(s, events, 0)
    ensures !s.continuity.Closed? && Step(s, events[0]).continuity == Closed(false, false)
  {
    assert events[..0] == [];
  }

  lemma NoCancellationOnceClosed(s: State, events: seq<Event>, i: nat)
    requires Inv(s) && s.continuity.Closed? && i < |events|
    ensures !CallerCancelledAt(s, events, i)
  {
    hide Inv, Next;
    ClosedForGood(s, events[..i]);
  }

  /** The quarantining call publishes before native `stop` has returned or raised exactly when that
      call was made from outside and was itself cancelled while its tasks drained. */
  lemma {:induction false} StopPrecedesPublication(s: State, events: seq<Event>)
    requires Inv(s) && !s.continuity.Closed? && Run(s, events).continuity.Closed?
    ensures !Run(s, events).continuity.stopSettled <==> exists i: nat | i < |events| :: CallerCancelledAt(s, events, i)
    decreases |events|
  {
    hide Inv, Next, Enabled, CallerCancelledAt, Progress;
    var s', rest := Step(s, events[0]), events[1..];
    StepKeeps(s, events[0]);
    forall i: nat | 0 < i < |events|
      ensures CallerCancelledAt(s, events, i) == CallerCancelledAt(s', rest, i - 1)
    {
      ShiftedCancellation(s, events, i);
    }
    if s'.continuity.Closed? {
      ClosedForGood(s', rest);
      ClosingStep(s, events);
      forall i: nat | i < |rest|
        ensures !CallerCancelledAt(s', rest, i)
      {
        NoCancellationOnceClosed(s', rest, i);
      }
    } else {
      StopPrecedesPublication(s', rest);
      if CallerCancelledAt(s, events, 0) {
        CancellationCloses(s, events);
      }
      if i: nat :| i < |rest| && CallerCancelledAt(s', rest, i) {
        assert CallerCancelledAt(s, events, i + 1);
      }
    }
  }

  lemma ClosedForGood(s: State, events: seq<Event>)
    requires Inv(s) && s.continuity.Closed?
    ensures Run(s, events).continuity == s.continuity
  {
    RunKeeps(s, events);
    hide Inv;
  }

  /** The step that closes: with `stop` settled, unless the caller was cancelled. */
  lemma ClosingStep(s: State, events: seq<Event>)
    requires events != [] && !s.continuity.Closed? && Step(s, events[0]).continuity.Closed?
    ensures Step(s, events[0]).continuity.stopSettled <==> !CallerCancelledAt(s, events, 0)
  {
    assert events[..0] == [];
    hide Next;
    HistoryStep(s, events[0]);
  }

  /** Which step may close the generation, and which records a stale expiry: it grows exactly
      when the grace of a cancellation passes with its target settled. */
  lemma HistoryStep(s: State, e: Event)
    requires Enabled(s, e)
    ensures !s.continuity.Closed? && Next(s, e).continuity.Closed? ==>
              && (e.StopReturns? || e.DrainingCallerCancelled?)
              && (Next(s, e).continuity.stopSettled <==> e.StopReturns?)
    ensures Next(s, e).staleExpiries ==
              if e.CancelGracePasses? && s.records[s.records[e.op].target.value].state.Terminal()
              then s.staleExpiries + {e.op} else s.staleExpiries
  {
    hide AdmitCreate, AdmitPrompt, AdmitCancel, AdmitRetire, EnterPrompt, ResumeTurn, ReachDeadline,
         DeadlineCancelSent, ResumeGrace, GraceExpired, StartControl, ManualCancelSent, TargetDone, RetireFinished,
         Unwind, Quarantine, Publish;
  }

  /** At the `i`-th event the grace of cancellation `op` passes although its target has settled. */
  ghost predicate StaleExpiryAt(s: State, events: seq<Event>, i: nat, op: OperationId)
    requires i < |events|
  {
    var t := Run(s, events[..i]);
    events[i] == CancelGracePasses(op) && Enabled(t, events[i])
    && t.records[t.records[op].target.value].state.Terminal()
  }

  /** The recorded stale expiries are those of the run. */
  lemma {:induction false} StaleExpiriesHappened(s: State, events: seq<Event>, op: OperationId)
    requires s.staleExpiries == {}
    ensures op in Run(s, events).staleExpiries <==> exists i: nat | i < |events| :: StaleExpiryAt(s, events, i, op)
    decreases |events|
  {
    if events != [] {
      var n := |events| - 1;
      var init, last := events[..n], events[n];
      StaleExpiriesHappened(s, init, op);
      assert events == init + [last];
      RunAppends(s, init, [last]);
      LastStep(Run(s, init), last);
      StaleStep(Run(s, init), last, op);
      hide Step, Next;
      forall i: nat | i < n
        ensures StaleExpiryAt(s, events, i, op) == StaleExpiryAt(s, init, i, op)
      {
        assert events[..i] == init[..i];
      }
      var now := last == CancelGracePasses(op) && Enabled(Run(s, init), last)
                 && Run(s, init).records[Run(s, init).records[op].target.value].state.Terminal();
      assert StaleExpiryAt(s, events, n, op) == now;
      if i: nat :| i < n && StaleExpiryAt(s, init, i, op) {
        assert StaleExpiryAt(s, events, i, op);
      }
    }
  }

  lemma LastStep(s: State, e: Event)
    ensures Run(s, [e]) == Step(s, e)
  {
    hide Step;
    assert [e][1..] == [];
  }

  lemma StaleStep(s: State, e: Event, op: OperationId)
    ensures op in Step(s, e).staleExpiries <==>
              || op in s.staleExpiries
              || (e == CancelGracePasses(op) && Enabled(s, e) && s.records[s.records[op].target.value].state.Terminal())
  {
    if Enabled(s, e) {
      HistoryStep(s, e);
    }
    hide Next;
  }

  /** A completed cancellation names the state its target ended in, exactly unless its grace
      passed when the target had already settled. */
  lemma CancelReceiptsAreTrue(limits: Limits, events: seq<Event>, later: seq<Event>, op: OperationId)
    requires op in Run(Init(limits), events).records
    requires Run(Init(limits), events).records[op].kind.CancelRequest?
    requires Run(Init(limits), events).records[op].state.Completed?
    ensures
      var s := Run(Init(limits), events);
      var f := Run(Init(limits), events + later);
      && s.records[op].result.CancelReceipt? && s.records[op].target.Some?
      && s.records[op].target.value in f.records
      && f.records[s.records[op].target.value].state.Terminal()
      && (s.records[op].result.target == f.records[s.records[op].target.value].state <==>
            !exists i: nat | i < |events| :: StaleExpiryAt(Init(limits), events, i, op))
  {
    LaterOnlyProgresses(limits, events, later);
    var s := Run(Init(limits), events);
    assert ReceiptTruth(s, op);
    assert RecordProgress(s, Run(Init(limits), events + later), s.records[op].target.value);
    hide Inv;
    StaleExpiriesHappened(Init(limits), events, op);
    hide StaleExpiryAt;
  }

  /** While continuity holds a session has at most one unsettled prompt, the one it names,
      its reservations are the unsettled prompts, and their number is bounded. */
  lemma ReservationsAreUnsettledPrompts(limits: Limits, events: seq<Event>)
    ensures
      var s := Run(Init(limits), events);
      && s.requests.Keys <= s.records.Keys
      && 0 <= s.reservations <= limits.maxQueuedPrompts + 1
      && s.reservations == |s.requests.Keys - s.released|
      && (s.continuity.Current? ==>
            && s.requests.Keys - s.released == (set op | op in s.requests && !s.records[op].state.Terminal())
            && (forall op | op in s.requests && !s.records[op].state.Terminal() ::
                  && s.requests[op].session in s.sessions
                  && s.sessions[s.requests[op].session].active == Some(op)))
  {
    InitHolds(limits);
    RunKeeps(Init(limits), events);
    var s := Run(Init(limits), events);
    if s.continuity.Current? {
      forall op | op in s.requests
        ensures op in s.released <==> s.records[op].state.Terminal()
        ensures !s.records[op].state.Terminal() ==>
          s.requests[op].session in s.sessions && s.sessions[s.requests[op].session].active == Some(op)
      {
        assert ReleasedOk(s, op) && EngagedOk(s, op) && RecordShape(s, op);
      }
    }
  }

  /** The instruction checks made at admission still hold when the turn completes: the
      `assert` and the constructor checks of `_record_instruction_submission` cannot fail. */
  lemma AdmissionChecksHoldAtSettlement(limits: Limits, events: seq<Event>, op: OperationId)
    requires PromptAt(Run(Init(limits), events), op, AwaitTurn)
    ensures
      var s := Run(Init(limits), events);
      var before := s.sessions[s.requests[op].session].instructions;
      && PhaseAllowed(before, s.requests[op])
      && (s.requests[op].phase.Invocation? ==> before.Submitted?)
      && WellFormed(RecordSubmission(before, s.requests[op]))
      && RecordSubmission(before, s.requests[op]).Submitted?
  {
    Reachable(limits, events);
    var s := Run(Init(limits), events);
    UndisturbedWorker(s, op);
    assert EngagedOk(s, op) && InstructionsOk(s, s.requests[op].session);
    RecordSubmissionWellFormed(s.sessions[s.requests[op].session].instructions, s.requests[op]);
  }

  /** Stable instructions are submitted once: two completed initial prompts of one session
      are the same operation. */
  lemma InstructionsAreSubmittedOnce(limits: Limits, events: seq<Event>, a: OperationId, b: OperationId)
    requires InitialDone(Run(Init(limits), events), a) && InitialDone(Run(Init(limits), events), b)
    requires Run(Init(limits), events).requests[a].session == Run(Init(limits), events).requests[b].session
    ensures a == b
  {
    Reachable(limits, events);
  }

  /** Truthful outcomes: a prompt that settled as anything but IN_DOUBT either was cancelled before
      dispatch, and then never had a turn; or its state, result and error are those its own turn's
      outcome calls for. */
  lemma OutcomesMatchTurns(limits: Limits, events: seq<Event>, op: OperationId)
    requires op in Run(Init(limits), events).requests && op in Run(Init(limits), events).records
    ensures
      var s := Run(Init(limits), events);
      var r := s.records[op];
      r.state.Terminal() && !r.state.InDoubt? ==>
        if r.result.CancelledPreDispatch? then r.state.Cancelled? && op !in s.started
        else op in s.turns && s.turns[op].phase.Done? && FitsTurn(r.state, r.result, r.error, s.turns[op].phase.outcome)
  {
    Reachable(limits, events);
    assert PromptTruth(Run(Init(limits), events), op);
  }

  /** A retired session stays retired while continuity holds, so it accepts no prompt. */
  lemma RetiredSessionsAcceptNothing(limits: Limits, events: seq<Event>, later: seq<Event>, r: PromptRequest, alive: bool)
    requires r.session in Run(Init(limits), events).sessions
    requires Run(Init(limits), events).sessions[r.session].state.Retired?
    requires r.op !in Run(Init(limits), events + later).records
    ensures AdmitPrompt(Run(Init(limits), events + later), r, alive).1.Refused?
    ensures AdmitPrompt(Run(Init(limits), events + later), r, alive).0 == Run(Init(limits), events + later)
  {
    LaterOnlyProgresses(limits, events, later);
    assert SessionProgress(Run(Init(limits), events), Run(Init(limits), events + later), r.session);
  }

  /** A worker that runs undisturbed never meets a changed generation: both
      `_require_current_generation` checks inside `_execute_prompt` always pass. */
  lemma RunningWorkersSeeTheirGeneration(limits: Limits, events: seq<Event>, op: OperationId)
    requires op in Run(Init(limits), events).workers && !Run(Init(limits), events).workers[op].cancelled
    ensures
      var s := Run(Init(limits), events);
      !s.continuity.Current? ==> s.workers[op].at.Settling? && OwnsLoss(s.continuity, op)
  {
    Reachable(limits, events);
    assert WorkerOk(Run(Init(limits), events), op);
  }
}
