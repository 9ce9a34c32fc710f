/** What admission promises over whole runs: at-most-once operation IDs, refusals without effect,
    and bounds on everything the service keeps. */
module DirectAdmission {
  import opened Basics
  import opened DirectState
  import opened DirectProtocol
  import opened DirectInvariants
  import opened DirectTheorems

  // ---------------------------------------------------------------- at most once

  /** The state after `events`, then one request, then anything. */
  function After(limits: Limits, events: seq<Event>, request: Event, later: seq<Event>): State {
    Run(Init(limits), events + [request] + later)
  }

  lemma AfterRequest(limits: Limits, events: seq<Event>, request: Event)
    ensures Run(Init(limits), events + [request]) == Step(Run(Init(limits), events), request)
  {
    RunAppends(Init(limits), events, [request]);
    assert [request][1..] == [];
  }

  /** An admitted operation keeps its identity in every later state. */
  lemma IdentityStays(limits: Limits, events: seq<Event>, request: Event, later: seq<Event>, op: OperationId, entry: Record)
    requires op in Step(Run(Init(limits), events), request).records
    requires Step(Run(Init(limits), events), request).records[op].SameIdentity(entry)
    ensures op in After(limits, events, request, later).records
    ensures After(limits, events, request, later).records[op].SameIdentity(entry)
  {
    AfterRequest(limits, events, request);
    OutcomesArePermanent(limits, events + [request], later, op);
  }

  lemma LimitsStay(limits: Limits, events: seq<Event>)
    ensures Run(Init(limits), events).limits == limits
  {
    InitHolds(limits);
    RunKeeps(Init(limits), events);
  }

  /** A prompt is admitted once: the same request later finds its own operation and has no effect,
      whatever happened in between; another request under its ID is refused. */
  lemma PromptsAreAdmittedOnce(limits: Limits, events: seq<Event>, later: seq<Event>,
                               r: PromptRequest, alive: bool, other: PromptRequest, again: bool)
    requires AdmitPrompt(Run(Init(limits), events), r, alive).1 == Operation(r.op, true)
    ensures var f := After(limits, events, SubmitPrompt(r, alive), later);
      && AdmitPrompt(f, r, again)
         == (f, if f.continuity.Current? && again then Operation(r.op, false) else Refused(GenerationMismatch))
      && (other.op == r.op && (other.digest != r.digest || other.session != r.session || other.invocation != r.invocation) ==>
            AdmitPrompt(f, other, again).0 == f && AdmitPrompt(f, other, again).1.Refused?)
  {
    hide LifetimeValid;
    var request := SubmitPrompt(r, alive);
    IdentityStays(limits, events, request, later, r.op, NewRecord(r.digest, Prompt, r.session, Some(r.invocation), None));
    LimitsStay(limits, events);
    LimitsStay(limits, events + [request] + later);
  }

  lemma CancellationsAreAdmittedOnce(limits: Limits, events: seq<Event>, later: seq<Event>,
                                     r: CancelCall, alive: bool, other: CancelCall, again: bool)
    requires AdmitCancel(Run(Init(limits), events), r, alive).1 == Operation(r.op, true)
    ensures var f := After(limits, events, SubmitCancel(r, alive), later);
      && AdmitCancel(f, r, again)
         == (f, if f.continuity.Current? && again then Operation(r.op, false) else Refused(GenerationMismatch))
      && (other.op == r.op && (other.digest != r.digest || other.target != r.target) ==>
            AdmitCancel(f, other, again).0 == f && AdmitCancel(f, other, again).1.Refused?)
  {
    var s, request := Run(Init(limits), events), SubmitCancel(r, alive);
    var target := s.records[r.target];
    IdentityStays(limits, events, request, later, r.op, NewRecord(r.digest, CancelRequest, target.session, None, Some(r.target)));
    TargetStays(limits, events, request, later, r.target);
  }

  lemma TargetStays(limits: Limits, events: seq<Event>, request: Event, later: seq<Event>, target: OperationId)
    requires target in Run(Init(limits), events).records
    ensures target in After(limits, events, request, later).records
    ensures After(limits, events, request, later).records[target].SameIdentity(Run(Init(limits), events).records[target])
  {
    assert events + [request] + later == events + ([request] + later);
    OutcomesArePermanent(limits, events, [request] + later, target);
  }

  lemma RetirementsAreAdmittedOnce(limits: Limits, events: seq<Event>, later: seq<Event>,
                                   r: RetireCall, alive: bool, other: RetireCall, again: bool)
    requires AdmitRetire(Run(Init(limits), events), r, alive).1 == Operation(r.op, true)
    ensures var f := After(limits, events, SubmitRetire(r, alive), later);
      && AdmitRetire(f, r, again)
         == (f, if f.continuity.Current? && again then Operation(r.op, false) else Refused(GenerationMismatch))
      && (other.op == r.op && (other.digest != r.digest || other.session != r.session) ==>
            AdmitRetire(f, other, again).0 == f && AdmitRetire(f, other, again).1.Refused?)
  {
    IdentityStays(limits, events, SubmitRetire(r, alive), later, r.op,
                  NewRecord(r.digest, RetireSession, r.session, None, None));
  }

  lemma CreationsAreAdmittedOnce(limits: Limits, events: seq<Event>, later: seq<Event>,
                                 r: CreateRequest, alive: bool, allocates: bool,
                                 other: CreateRequest, again: bool, differently: bool)
    requires AdmitCreate(Run(Init(limits), events), r, alive, allocates).1 == Operation(r.op, true)
    ensures var f := After(limits, events, Create(r, alive, allocates), later);
      && AdmitCreate(f, r, again, differently)
         == (f, if f.continuity.Current? && again then Operation(r.op, false) else Refused(GenerationMismatch))
      && (other.op == r.op && (other.digest != r.digest || other.session != r.session) ==>
            AdmitCreate(f, other, again, differently).0 == f && AdmitCreate(f, other, again, differently).1.Refused?)
  {
    IdentityStays(limits, events, Create(r, alive, allocates), later, r.op,
                  NewRecord(r.digest, CreateSession, r.session, None, None));
  }

  /** A reply without effect: a refusal, or an operation found. An operation created is new, and the
      only one added. Once continuity is lost every reply is a refusal. */
  ghost predicate Atomic(s: State, alive: bool, x: (State, Reply)) {
    && (x.1.Refused? || !x.1.created ==> x.0 == s)
    && (x.1.Operation? && x.1.created ==> x.1.op !in s.records && x.0.records.Keys == s.records.Keys + {x.1.op})
    && (!s.continuity.Current? || !alive ==> x.1.Refused?)
  }

  lemma CreationsAreAtomic(s: State, r: CreateRequest, alive: bool, allocates: bool)
    ensures Atomic(s, alive, AdmitCreate(s, r, alive, allocates))
  {
  }

  lemma PromptsAreAtomic(s: State, r: PromptRequest, alive: bool)
    ensures Atomic(s, alive, AdmitPrompt(s, r, alive))
  {
    PromptReplies(s, r, alive);
    AdmittedPrompt(s, r, alive);
    hide AdmitPrompt;
  }

  lemma PromptReplies(s: State, r: PromptRequest, alive: bool)
    ensures var x := AdmitPrompt(s, r, alive);
      && (x.1.Refused? || !x.1.created ==> x.0 == s)
      && (x.1.Operation? && x.1.created ==> x.1.op == r.op && x.0 != s)
      && (!s.continuity.Current? || !alive ==> x.1.Refused?)
  {
    hide LifetimeValid;
    var x := AdmitPrompt(s, r, alive);
    assert x.1.Operation? && x.1.created ==> x.0.reservations == s.reservations + 1;
  }

  lemma CancellationsAreAtomic(s: State, r: CancelCall, alive: bool)
    ensures Atomic(s, alive, AdmitCancel(s, r, alive))
  {
    if r.target in s.records {
      TouchKeepsKeys(s, r.target);
    }
    hide TouchTarget;
  }

  lemma TouchKeepsKeys(s: State, target: OperationId)
    requires target in s.records
    ensures var t := TouchTarget(s, target); t.records.Keys == s.records.Keys && SameAdmissions(s, t)
  {
    var t := TouchTarget(s, target);
    assert forall op :: op in t.records <==> op in s.records;
    assert forall sid :: sid in t.sessions <==> sid in s.sessions;
  }

  lemma RetirementsAreAtomic(s: State, r: RetireCall, alive: bool)
    ensures Atomic(s, alive, AdmitRetire(s, r, alive))
  {
    var x := AdmitRetire(s, r, alive);
    assert x.1.Operation? && x.1.created ==> x.0.records == s.records[r.op := x.0.records[r.op]];
  }

  // ---------------------------------------------------------------- bounds

  ghost predicate RequestWithin(limits: Limits, r: PromptRequest) {
    r.timeout <= limits.maxExecutionTimeout && r.textBytes <= limits.maxPromptBytes
  }

  ghost predicate Within(s: State) {
    && |s.records| <= s.limits.maxOperations
    && |s.sessions| <= s.limits.maxSessions
    && forall op | op in s.requests :: RequestWithin(s.limits, s.requests[op]) && Digested(s.sessions, s.requests[op])
  }

  /** A prompt has the stable instructions of its session, and the texts it hands over have the digests it is
      announced with. */
  ghost predicate Digested(sessions: map<SessionId, Session>, r: PromptRequest) {
    && r.session in sessions && r.stableDigest == sessions[r.session].stableDigest
    && (r.phase.Initial? ==> r.phase.stableText == r.stableDigest)
    && (!r.phase.Delta() ==> r.phase.contractText == r.contractDigest)
  }

  ghost predicate SameInstructions(before: map<SessionId, Session>, after: map<SessionId, Session>) {
    forall sid | sid in before :: sid in after && after[sid].stableDigest == before[sid].stableDigest
  }

  /** What the ledger, the session table and the admitted prompts are measured by. */
  ghost predicate SameAdmissions(s: State, t: State) {
    && t.limits == s.limits && t.records.Keys == s.records.Keys && t.requests == s.requests
    && t.sessions.Keys == s.sessions.Keys && SameInstructions(s.sessions, t.sessions)
  }

  lemma SameAdmissionsStayWithin(s: State, t: State)
    requires Within(s) && SameAdmissions(s, t)
    ensures Within(t)
  {
    assert |t.records| == |t.records.Keys| == |s.records.Keys| == |s.records|;
    assert |t.sessions| == |t.sessions.Keys| == |s.sessions.Keys| == |s.sessions|;
  }

  /** One more operation, admitted below its limit. */
  lemma OneMore(s: State, t: State, op: OperationId)
    requires Within(s) && |s.records| < s.limits.maxOperations && op !in s.records
    requires t.limits == s.limits && t.records.Keys == s.records.Keys + {op} && t.sessions.Keys == s.sessions.Keys
    requires SameInstructions(s.sessions, t.sessions)
    requires t.requests == s.requests || (op in t.requests && t.requests == s.requests[op := t.requests[op]]
                                          && RequestWithin(s.limits, t.requests[op])
                                          && Digested(t.sessions, t.requests[op]))
    ensures Within(t)
  {
    assert |t.records| == |t.records.Keys| == |s.records.Keys| + 1 == |s.records| + 1;
    assert |t.sessions| == |t.sessions.Keys| == |s.sessions.Keys| == |s.sessions|;
  }

  lemma CreationStaysWithin(s: State, r: CreateRequest, alive: bool, allocates: bool)
    requires Within(s)
    ensures Within(AdmitCreate(s, r, alive, allocates).0)
  {
  }

  lemma PromptStaysWithin(s: State, r: PromptRequest, alive: bool)
    requires Within(s)
    ensures Within(AdmitPrompt(s, r, alive).0)
  {
    hide AdmitPrompt, Within;
    AdmittedPrompt(s, r, alive);
    var t := AdmitPrompt(s, r, alive).0;
    if t == s {
      assert Within(t);
    } else {
      OneMore(s, t, r.op);
    }
  }

  lemma AdmittedPrompt(s: State, r: PromptRequest, alive: bool)
    ensures var t := AdmitPrompt(s, r, alive).0;
      t != s ==>
        && r.op !in s.records && |s.records| < s.limits.maxOperations && RequestWithin(s.limits, r)
        && t.limits == s.limits && t.records.Keys == s.records.Keys + {r.op}
        && t.sessions.Keys == s.sessions.Keys && t.requests == s.requests[r.op := r]
        && SameInstructions(s.sessions, t.sessions) && Digested(t.sessions, r)
  {
    hide PhaseAllowed;
  }

  lemma CancellationStaysWithin(s: State, r: CancelCall, alive: bool)
    requires Within(s)
    ensures Within(AdmitCancel(s, r, alive).0)
  {
    if r.target in s.records {
      TouchKeepsKeys(s, r.target);
    }
    hide TouchTarget, Within;
    var t := AdmitCancel(s, r, alive).0;
    if t != s {
      OneMore(s, t, r.op);
    }
  }

  lemma RetirementStaysWithin(s: State, r: RetireCall, alive: bool)
    requires Within(s)
    ensures Within(AdmitRetire(s, r, alive).0)
  {
    hide Within, AdmitRetire;
    AdmittedRetirement(s, r, alive);
    var t := AdmitRetire(s, r, alive).0;
    if t != s {
      OneMore(s, t, r.op);
    }
  }

  lemma AdmittedRetirement(s: State, r: RetireCall, alive: bool)
    ensures var t := AdmitRetire(s, r, alive).0;
      t != s ==>
        && r.op !in s.records && |s.records| < s.limits.maxOperations
        && t.limits == s.limits && t.records.Keys == s.records.Keys + {r.op} && t.requests == s.requests
        && t.sessions.Keys == s.sessions.Keys && SameInstructions(s.sessions, t.sessions)
  {
  }

  lemma LossAdmitsNothing(s: State, owner: Owner, deferred: map<OperationId, Settlement>)
    ensures SameAdmissions(s, Quarantine(s, owner, deferred))
  {
  }

  lemma FinishAdmitsNothing(s: State, op: OperationId, dispatched: bool)
    requires op in s.records && op in s.requests && s.requests[op].session in s.sessions
    ensures SameAdmissions(s, FinishPrompt(s, op, dispatched))
  {
  }

  lemma SettleAdmitsNothing(s: State, op: OperationId, outcome: OperationState, result: Result, error: ErrorCode,
                            use: SessionState, instructions: InstructionState)
    requires op in s.records && op in s.requests && s.requests[op].session in s.sessions && outcome.Terminal()
    ensures SameAdmissions(s, Settle(s, op, outcome, result, error, use, instructions))
  {
  }

  lemma SettleTerminalAdmitsNothing(s: State, op: OperationId, outcome: TurnOutcome)
    requires op in s.records && op in s.requests && s.requests[op].session in s.sessions && outcome.Terminal()
    ensures SameAdmissions(s, SettleTerminal(s, op, outcome))
  {
    hide Quarantine, Settle;
    var sid, o := s.requests[op].session, outcome.observation;
    var inactive := s.(sessions := s.sessions[sid := s.sessions[sid].(active := None)]);
    forall outcome: OperationState, error, use, result, instructions | outcome.Terminal()
      ensures SameAdmissions(s, Settle(s, op, outcome, result, error, use, instructions))
    {
      SettleAdmitsNothing(s, op, outcome, result, error, use, instructions);
    }
    forall t: State, deferred | SameAdmissions(s, t)
      ensures SameAdmissions(s, Quarantine(t, ByWorker(op), deferred))
    {
      LossAdmitsNothing(t, ByWorker(op), deferred);
    }
    assert SameAdmissions(s, inactive);
  }

  lemma AbandonAdmitsNothing(s: State, op: OperationId, result: Result, error: ErrorCode)
    ensures SameAdmissions(s, AbandonPrompt(s, op, result, error))
  {
    LossAdmitsNothing(PopDone(s, op).(lock := None), ByWorker(op), map[op := Settlement(InDoubt, result, error)]);
    hide Quarantine;
  }

  lemma PromptTaskAdmitsNothing(s: State, e: Event)
    requires Enabled(s, e)
    requires e.Enter? || e.TurnStarts? || e.TurnEnds? || e.DeadlinePasses? || e.DeadlineCancelReturns? || e.GracePasses?
    ensures SameAdmissions(s, Next(s, e))
  {
    match e {
      case Enter(op) =>
        FinishAdmitsNothing(s, op, false);
      case DeadlineCancelReturns(op, sent) =>
        AbandonAdmitsNothing(s, op, NoResult, PromptInDoubt);
      case GracePasses(op) =>
        LossAdmitsNothing(s, ByWorker(op), map[op := Settlement(InDoubt, NoResult, DeadlineSettlementUnknown)]);
      case _ =>
    }
    hide FinishPrompt, AbandonPrompt, Quarantine;
  }

  lemma TurnSeenAdmitsNothing(s: State, op: OperationId)
    requires PromptWithTurn(s, op, AwaitTurn)
    ensures SameAdmissions(s, ResumeTurn(s, op))
  {
    var outcome := s.turns[op].phase.outcome;
    if outcome.RaisedOther? {
      AbandonAdmitsNothing(s, op, NoResult, PromptInDoubt);
    } else if outcome.Unsettled? {
      AbandonAdmitsNothing(s, op, RetainedEvidence(outcome.observation), PromptInDoubt);
    } else if outcome.Terminal() {
      SettleTerminalAdmitsNothing(s, op, outcome);
    }
    hide SettleTerminal, AbandonPrompt;
  }

  lemma GraceSeenAdmitsNothing(s: State, op: OperationId)
    requires PromptWithTurn(s, op, DeadlineGrace)
    ensures SameAdmissions(s, ResumeGrace(s, op))
  {
    var outcome := s.turns[op].phase.outcome;
    if outcome.RaisedTimeout? {
      LossAdmitsNothing(s, ByWorker(op), map[op := Settlement(InDoubt, NoResult, DeadlineSettlementUnknown)]);
    } else if outcome.RaisedOther? {
      AbandonAdmitsNothing(s, op, NoResult, PromptInDoubt);
    } else if outcome.Unsettled? {
      AbandonAdmitsNothing(s, op, RetainedEvidence(outcome.observation), PromptInDoubt);
    } else if outcome.TurnCancelled? {
      SettleAdmitsNothing(s, op, TimedOut, RetainedEvidence(outcome.observation), ExecutionDeadline, NonReusable,
                          s.sessions[s.requests[op].session].instructions);
    } else {
      LossAdmitsNothing(s, ByWorker(op), map[op := Settlement(InDoubt, RetainedEvidence(outcome.observation), DeadlineStopMismatch)]);
    }
    hide Settle, AbandonPrompt, Quarantine, SameAdmissions;
  }

  lemma ControlAdmitsNothing(s: State, e: Event)
    requires Enabled(s, e)
    requires e.CancelStarts? || e.CancelReturns? || e.CancelSeesTarget? || e.CancelGracePasses?
          || e.RetireStarts? || e.RetireReturns?
    ensures SameAdmissions(s, Next(s, e))
  {
    if e.CancelReturns? || e.CancelGracePasses? || e.RetireReturns? {
      ControlEndAdmitsNothing(s, e);
    }
    hide RetireFinished, TargetExpired, ManualCancelSent;
  }

  lemma ControlEndAdmitsNothing(s: State, e: Event)
    requires Enabled(s, e) && (e.CancelReturns? || e.CancelGracePasses? || e.RetireReturns?)
    ensures SameAdmissions(s, Next(s, e))
  {
    forall t: State, owner, deferred | SameAdmissions(s, t)
      ensures SameAdmissions(s, Quarantine(t, owner, deferred))
    {
      LossAdmitsNothing(t, owner, deferred);
    }
    hide Quarantine;
    if e.RetireReturns? {
      RetirementAdmitsNothing(s, e.op, e.destroyed);
      hide FinishRetire;
    } else {
      assert SameAdmissions(s, MarkNonReusable(s, s.records[e.op].session));
      hide SameAdmissions, MarkNonReusable;
    }
  }

  lemma RetirementAdmitsNothing(s: State, op: OperationId, destroyed: bool)
    requires ControlAt(s, op, RetireSession, AwaitRetire)
    ensures SameAdmissions(s, RetireFinished(s, op, true, destroyed))
  {
  }

  lemma UnwindAdmitsNothing(s: State, op: OperationId)
    requires UnwindReady(s, op)
    ensures SameAdmissions(s, Unwind(s, op))
  {
  }

  lemma PublishAdmitsNothing(s: State, stopSettled: bool, failed: bool)
    requires Publishable(s)
    ensures SameAdmissions(s, Publish(s, stopSettled, failed))
  {
    var published := s.(
      records := map op | op in s.records :: PublishedRecord(s, op, failed),
      continuity := Closed(stopSettled, failed));
    hide PublishedRecord, Unwind;
    assert SameAdmissions(s, published);
    if s.continuity.owner.ByWorker? && UnwindReady(published, s.continuity.owner.op) {
      UnwindAdmitsNothing(published, s.continuity.owner.op);
    }
  }

  lemma CleanupAdmitsNothing(s: State, e: Event)
    requires Enabled(s, e)
    requires e.CancelledWorkerResumes? || e.GenerationLost? || e.TasksDrained? || e.DrainingCallerCancelled? || e.StopReturns?
    ensures SameAdmissions(s, Next(s, e))
  {
    match e {
      case CancelledWorkerResumes(op) =>
        UnwindAdmitsNothing(s, op);
      case GenerationLost =>
        LossAdmitsNothing(s, External, map[]);
      case DrainingCallerCancelled =>
        PublishAdmitsNothing(s.(continuity := ToStopping(s.continuity)), false, false);
      case StopReturns(failed) =>
        PublishAdmitsNothing(s, true, failed);
      case TasksDrained =>
    }
    hide Quarantine, Unwind, Publish;
  }

  lemma SeenNext(s: State, e: Event)
    requires Enabled(s, e)
    ensures e.WorkerSeesTurn? ==> PromptWithTurn(s, e.op, AwaitTurn) && Next(s, e) == ResumeTurn(s, e.op)
    ensures e.GraceSeesTurn? ==> PromptWithTurn(s, e.op, DeadlineGrace) && Next(s, e) == ResumeGrace(s, e.op)
  {
  }

  lemma StepStaysWithin(s: State, e: Event)
    requires Within(s)
    ensures Within(Step(s, e))
  {
    hide Within, Next;
    if Enabled(s, e) {
      if e.Create? || e.SubmitPrompt? || e.SubmitCancel? || e.SubmitRetire? {
        AdmissionStaysWithin(s, e);
      } else {
        if e.WorkerSeesTurn? {
          SeenNext(s, e);
          TurnSeenAdmitsNothing(s, e.op);
        } else if e.GraceSeesTurn? {
          SeenNext(s, e);
          GraceSeenAdmitsNothing(s, e.op);
        } else if e.CancelStarts? || e.CancelReturns? || e.CancelSeesTarget? || e.CancelGracePasses?
                  || e.RetireStarts? || e.RetireReturns? {
          ControlAdmitsNothing(s, e);
        } else if e.CancelledWorkerResumes? || e.GenerationLost? || e.TasksDrained? || e.DrainingCallerCancelled?
                  || e.StopReturns? {
          CleanupAdmitsNothing(s, e);
        } else {
          PromptTaskAdmitsNothing(s, e);
        }
        SameAdmissionsStayWithin(s, Next(s, e));
      }
    }
  }

  lemma AdmissionStaysWithin(s: State, e: Event)
    requires Within(s) && (e.Create? || e.SubmitPrompt? || e.SubmitCancel? || e.SubmitRetire?)
    ensures Enabled(s, e) && Within(Next(s, e))
  {
    hide Within, AdmitCreate, AdmitPrompt, AdmitCancel, AdmitRetire;
    match e {
      case Create(r, alive, allocates) => CreationStaysWithin(s, r, alive, allocates);
      case SubmitPrompt(r, alive) => PromptStaysWithin(s, r, alive);
      case SubmitCancel(r, alive) => CancellationStaysWithin(s, r, alive);
      case SubmitRetire(r, alive) => RetirementStaysWithin(s, r, alive);
    }
  }

  /** Over every run the ledger and the session table stay within their limits, and every prompt ever
      admitted, whatever became of it, was within its own. */
  lemma {:induction false} RunStaysWithin(s: State, events: seq<Event>)
    requires Within(s)
    ensures Within(Run(s, events))
    decreases |events|
  {
    hide Within;
    if events != [] {
      StepStaysWithin(s, events[0]);
      RunStaysWithin(Step(s, events[0]), events[1..]);
    }
  }

  lemma LimitsHold(limits: Limits, events: seq<Event>)
    ensures Within(Run(Init(limits), events))
  {
    RunStaysWithin(Init(limits), events);
  }

  // ---------------------------------------------------------------- what is accepted

  /** The prompts that have not settled. */
  ghost function Unsettled(s: State): set<OperationId> {
    set op | op in s.requests && op in s.records && !s.records[op].state.Terminal()
  }

  /** A prompt fits its session: the same stable instructions, handed over by the first prompt and by no other; a new
      invocation is one without a contract; a delta belongs to the active invocation and to its contract; and the texts
      that are handed over have the digests they are announced with. */
  ghost predicate FitsSession(session: Session, r: PromptRequest) {
    && r.stableDigest == session.stableDigest
    && match r.phase
       case Initial(stableText, contractText) =>
         session.instructions.Pending? && stableText == session.stableDigest && contractText == r.contractDigest
       case Invocation(contractText) =>
         && session.instructions.Submitted? && contractText == r.contractDigest
         && forall i :: 0 <= i < |session.instructions.contracts| ==> session.instructions.contracts[i].0 != r.invocation
       case _ =>
         && session.instructions.Submitted? && r.invocation == session.instructions.active
         && (r.invocation, r.contractDigest) in session.instructions.contracts
  }

  lemma LifetimeMeans(session: Session, r: PromptRequest)
    requires WellFormed(session.instructions)
    ensures LifetimeValid(session, r) <==> FitsSession(session, r)
  {
    if session.instructions.Submitted? {
      ContractForIsTheContract(session.instructions.contracts, r.invocation, r.contractDigest);
    }
  }

  lemma ReservedNow(s: State)
    requires Inv(s) && s.continuity.Current?
    ensures s.reservations == |Unsettled(s)|
  {
    assert Unsettled(s) == s.requests.Keys - s.released by {
      forall op | op in s.requests
        ensures op in s.released <==> s.records[op].state.Terminal()
      {
        assert ReleasedOk(s, op);
      }
    }
  }

  /** Exactly these prompts are accepted: under the current generation and its limits, with a new operation ID, in a
      session that is ready and that they fit, while the queue has room. An accepted prompt waits behind every other
      unsettled one, and takes its session. */
  lemma PromptsAccepted(s: State, r: PromptRequest, alive: bool)
    requires Inv(s)
    ensures var (t, reply) := AdmitPrompt(s, r, alive);
      && (reply == Operation(r.op, true) <==>
            && r.pinned && s.continuity.Current? && alive && RequestWithin(s.limits, r)
            && r.op !in s.records && |s.records| < s.limits.maxOperations
            && r.session in s.sessions && s.sessions[r.session].state.Ready? && FitsSession(s.sessions[r.session], r)
            && |Unsettled(s)| <= s.limits.maxQueuedPrompts)
      && (reply == Operation(r.op, true) ==>
            && r.op in t.records && t.records == s.records[r.op := t.records[r.op]]
            && t.records[r.op].SameIdentity(NewRecord(r.digest, Prompt, r.session, Some(r.invocation), None))
            && t.records[r.op].state == (if Unsettled(s) == {} then Accepted else Queued)
            && t.requests == s.requests[r.op := r]
            && t.sessions == s.sessions[r.session := s.sessions[r.session].(active := Some(r.op), state := SessionState.Busy)])
  {
    if s.continuity.Current? {
      ReservedNow(s);
    }
    if r.session in s.sessions {
      assert InstructionsOk(s, r.session);
      LifetimeMeans(s.sessions[r.session], r);
      if s.continuity.Current? {
        assert SessionOk(s, r.session);
      }
    }
    hide Inv, LifetimeValid, FitsSession, Unsettled;
  }

  lemma CreationsAccepted(s: State, r: CreateRequest, alive: bool, allocates: bool)
    ensures var (t, reply) := AdmitCreate(s, r, alive, allocates);
      && (reply == Operation(r.op, true) <==>
            && r.pinned && s.continuity.Current? && alive && r.sameWorkspace && r.modelAdvertised
            && r.op !in s.records && |s.records| < s.limits.maxOperations
            && r.session !in s.sessions && |s.sessions| < s.limits.maxSessions)
      && (reply == Operation(r.op, true) ==>
            && r.op in t.records && t.records[r.op].state == (if allocates then Completed else Failed)
            && r.session in t.sessions
            && t.sessions[r.session] == Session(r.stableDigest, if allocates then Ready else NonReusable, None, Pending))
  {
  }

  /** A cancellation is accepted for every known prompt, settled or not. */
  lemma CancellationsAccepted(s: State, r: CancelCall, alive: bool)
    ensures AdmitCancel(s, r, alive).1 == Operation(r.op, true) <==>
              && r.pinned && s.continuity.Current? && alive
              && r.target in s.records && s.records[r.target].kind.Prompt?
              && r.op !in s.records && |s.records| < s.limits.maxOperations
  {
    hide TouchTarget;
  }

  /** A session is retired unless it is retired or in use. */
  lemma RetirementsAccepted(s: State, r: RetireCall, alive: bool)
    ensures var (t, reply) := AdmitRetire(s, r, alive);
      && (reply == Operation(r.op, true) <==>
            && r.pinned && s.continuity.Current? && alive
            && r.op !in s.records && |s.records| < s.limits.maxOperations
            && r.session in s.sessions && !s.sessions[r.session].state.Retired? && s.sessions[r.session].active.None?)
      && (reply == Operation(r.op, true) ==>
            && r.session in t.sessions
            && t.sessions[r.session] == s.sessions[r.session].(active := Some(r.op), state := Retiring))
  {
  }

  // ---------------------------------------------------------------- why the rest is refused

  /** The operation ID stands for another request. */
  ghost predicate Clashes(s: State, op: OperationId, entry: Record) {
    op in s.records && !s.records[op].SameIdentity(entry)
  }

  /** A refusal says what is the case. */
  lemma PromptRefusals(s: State, r: PromptRequest, alive: bool)
    requires Inv(s) && AdmitPrompt(s, r, alive).1.Refused?
    ensures match AdmitPrompt(s, r, alive).1.reason
            case GenerationMismatch => !r.pinned || !s.continuity.Current? || !alive
            case WorkspaceMismatch => false
            case Busy => r.session in s.sessions && s.sessions[r.session].active.Some?
            case NotFound => r.session !in s.sessions
            case LimitExceeded =>
              || !RequestWithin(s.limits, r)
              || (r.op !in s.records && (|Unsettled(s)| > s.limits.maxQueuedPrompts || |s.records| >= s.limits.maxOperations))
            case Conflict =>
              || Clashes(s, r.op, NewRecord(r.digest, Prompt, r.session, Some(r.invocation), None))
              || (r.session in s.sessions
                  && (!s.sessions[r.session].state.Ready? || !FitsSession(s.sessions[r.session], r)))
  {
    if s.continuity.Current? {
      ReservedNow(s);
    }
    if r.session in s.sessions {
      assert InstructionsOk(s, r.session);
      LifetimeMeans(s.sessions[r.session], r);
      if s.continuity.Current? {
        assert SessionOk(s, r.session);
      }
    }
    hide Inv, LifetimeValid, FitsSession, Unsettled;
  }

  lemma CreationRefusals(s: State, r: CreateRequest, alive: bool, allocates: bool)
    requires AdmitCreate(s, r, alive, allocates).1.Refused?
    ensures match AdmitCreate(s, r, alive, allocates).1.reason
            case GenerationMismatch => !r.pinned || !s.continuity.Current? || !alive
            case WorkspaceMismatch => !r.sameWorkspace
            case Busy => false
            case NotFound => false
            case LimitExceeded =>
              r.op !in s.records && (|s.sessions| >= s.limits.maxSessions || |s.records| >= s.limits.maxOperations)
            case Conflict =>
              || !r.modelAdvertised || (r.op !in s.records && r.session in s.sessions)
              || Clashes(s, r.op, NewRecord(r.digest, CreateSession, r.session, None, None))
  {
  }

  lemma CancellationRefusals(s: State, r: CancelCall, alive: bool)
    requires AdmitCancel(s, r, alive).1.Refused?
    ensures match AdmitCancel(s, r, alive).1.reason
            case GenerationMismatch => !r.pinned || !s.continuity.Current? || !alive
            case NotFound => r.target !in s.records
            case LimitExceeded => r.op !in s.records && |s.records| >= s.limits.maxOperations
            case Conflict =>
              && r.target in s.records
              && (!s.records[r.target].kind.Prompt?
                  || Clashes(s, r.op, NewRecord(r.digest, CancelRequest, s.records[r.target].session, None, Some(r.target))))
            case _ => false
  {
    hide TouchTarget;
  }

  lemma RetirementRefusals(s: State, r: RetireCall, alive: bool)
    requires AdmitRetire(s, r, alive).1.Refused?
    ensures match AdmitRetire(s, r, alive).1.reason
            case GenerationMismatch => !r.pinned || !s.continuity.Current? || !alive
            case NotFound => r.session !in s.sessions
            case LimitExceeded => r.op !in s.records && |s.records| >= s.limits.maxOperations
            case Conflict =>
              || Clashes(s, r.op, NewRecord(r.digest, RetireSession, r.session, None, None))
              || (r.session in s.sessions && (s.sessions[r.session].state.Retired? || s.sessions[r.session].active.Some?))
            case _ => false
  {
  }
}
