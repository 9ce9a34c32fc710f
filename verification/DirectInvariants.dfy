/** What holds in every reachable state of the direct service. */
module DirectInvariants {
  import opened Basics
  import opened DirectState
  import opened DirectProtocol

  // ---------------------------------------------------------------- shape

  ghost predicate RecordShape(s: State, op: OperationId)
    requires op in s.records
  {
    var r := s.records[op];
    && r.session in s.sessions
    && (r.kind.Prompt? <==> op in s.requests)
    && (op in s.requests ==> s.requests[op].session == r.session)
    && (r.kind.CreateSession? ==> r.state.Terminal())
    && (r.kind.CancelRequest? ==>
          && r.target.Some? && r.target.value in s.requests && r.target.value in s.records
          && s.records[r.target.value].session == r.session)
  }

  ghost predicate Shape(s: State) {
    && s.requests.Keys <= s.records.Keys
    && s.workers.Keys <= s.records.Keys
    && s.turns.Keys <= s.requests.Keys
    && s.tracked <= s.turns.Keys
    && (forall op {:trigger RecordShape(s, op)} :: op in s.records ==> RecordShape(s, op))
  }

  // ---------------------------------------------------------------- workers, turns and the lock

  ghost predicate OwnsLoss(c: Continuity, op: OperationId) {
    (c.Draining? || c.Stopping?) && c.owner == ByWorker(op)
  }

  /** The record state that goes with each suspension point. */
  ghost predicate PointOk(s: State, op: OperationId)
    requires op in s.workers && op in s.records
  {
    var r := s.records[op];
    match s.workers[op].at
    case Scheduled =>
      if r.kind.Prompt? then op !in s.turns && (r.state.Accepted? || r.state.Queued? || r.state.Cancelled?)
      else r.state.Accepted?
    case AwaitLock =>
      r.kind.Prompt? && op !in s.turns && (r.state.Accepted? || r.state.Queued? || r.state.Cancelled?)
    case AwaitTurn =>
      r.kind.Prompt? && op in s.turns && s.lock == Some(op) && (r.state.Running? || r.state.Cancelling?)
    case SendDeadlineCancel => r.kind.Prompt? && op in s.turns && s.lock == Some(op) && r.state.Cancelling?
    case DeadlineGrace => r.kind.Prompt? && op in s.turns && s.lock == Some(op) && r.state.Cancelling?
    case SendCancel => r.kind.CancelRequest? && r.state.Running?
    case AwaitTarget => r.kind.CancelRequest? && r.state.Running?
    case AwaitRetire => r.kind.RetireSession? && r.state.Running?
    case Settling => OwnsLoss(s.continuity, op)
  }

  ghost predicate WorkerOk(s: State, op: OperationId)
    requires op in s.workers && op in s.records
  {
    && (s.workers[op].cancelled <==> !s.continuity.Current? && !s.workers[op].at.Settling?)
    && (OwnsLoss(s.continuity, op) ==> s.workers[op].at.Settling?)
    && PointOk(s, op)
  }

  ghost predicate TurnOk(s: State, op: OperationId)
    requires op in s.turns
  {
    var t := s.turns[op];
    && (t.phase.Done? && t.phase.outcome.TaskCancelled? ==> t.cancelled)
    && (t.cancelled ==> !s.continuity.Current?)
    && (!t.phase.Done? ==>
          if s.continuity.Current? then op in s.tracked && s.lock == Some(op) else t.cancelled)
    && (t.phase.Created? ==> op !in s.started)
  }

  ghost predicate LockOk(s: State) {
    s.continuity.Current? && s.lock.Some? ==>
      && s.lock.value in s.workers
      && (s.workers[s.lock.value].at.AwaitTurn? || s.workers[s.lock.value].at.SendDeadlineCancel?
          || s.workers[s.lock.value].at.DeadlineGrace?)
  }

  ghost predicate Unfinished1(s: State, op: OperationId) {
    op in s.turns && !s.turns[op].phase.Done?
  }

  ghost predicate Tasks(s: State)
    requires Shape(s)
  {
    && (forall op {:trigger WorkerOk(s, op)} :: op in s.workers ==> WorkerOk(s, op))
    && (forall op {:trigger TurnOk(s, op)} :: op in s.turns ==> TurnOk(s, op))
    && LockOk(s)
    && (forall a, b | Unfinished1(s, a) && Unfinished1(s, b) :: a == b)
    && (forall i, j | 0 <= i < j < |s.started| :: s.started[i] != s.started[j])
    && (forall op | op in s.started :: op in s.turns)
  }

  // ---------------------------------------------------------------- ownership of unsettled records

  /** The only settlement ever deferred for a prompt or a retirement. */
  ghost predicate Uncertain(x: Settlement) {
    x.state.InDoubt? && (x.result.NoResult? || x.result.RetainedEvidence?)
  }

  ghost predicate SettlementOk(s: State, d: OperationId)
    requires s.continuity.Draining? || s.continuity.Stopping?
    requires d in s.continuity.deferred
  {
    var deferred := s.continuity.deferred;
    var x := deferred[d];
    && d in s.records
    && x.state.Terminal()
    && !s.records[d].kind.CreateSession?
    && (!s.records[d].kind.CancelRequest? ==> Uncertain(x))
    && (s.records[d].kind.CancelRequest? ==>
          && s.records[d].state.Running?
          && (x.state.Failed? || x.state.Completed?)
          && (d in s.staleExpiries ==> x.state.Completed?)
          && (x.state.Completed? ==>
                && x.result == CancelReceipt(InDoubt, true)
                && s.records[d].target.Some?
                && s.records[d].target.value in deferred
                && s.records[d].target.value in s.records
                && (d in s.staleExpiries <==> s.records[s.records[d].target.value].state.Terminal())))
  }

  /** Who will settle a record: its own worker while continuity holds, then the call that
      quarantined the generation, and nobody once that call has published. */
  ghost predicate HasOwner(s: State, op: OperationId)
    requires op in s.records
  {
    match s.continuity
    case Current => s.records[op].state.Terminal() || op in s.workers
    case Closed(_, _) => s.records[op].state.Terminal()
    case Draining(_, doomed, deferred, _) => OwnedIn(s, op, doomed, deferred)
    case Stopping(_, doomed, deferred, _) => OwnedIn(s, op, doomed, deferred)
  }

  ghost predicate OwnedIn(s: State, op: OperationId, doomed: set<OperationId>,
                          deferred: map<OperationId, Settlement>)
    requires op in s.records
  {
    && (!s.records[op].state.Terminal() ==> op in doomed || op in deferred)
    && (op in doomed ==> !s.records[op].state.Terminal() && op !in deferred)
  }

  ghost predicate Owned(s: State) {
    match s.continuity
    case Current => forall op {:trigger HasOwner(s, op)} :: op in s.records ==> HasOwner(s, op)
    case Closed(_, _) => s.workers == map[] && forall op {:trigger HasOwner(s, op)} :: op in s.records ==> HasOwner(s, op)
    case _ => OwnedByLoss(s)
  }

  ghost predicate OwnedByLoss(s: State)
    requires s.continuity.Draining? || s.continuity.Stopping?
  {
    var c := s.continuity;
    && (forall op {:trigger HasOwner(s, op)} :: op in s.records ==> HasOwner(s, op))
    && (forall d {:trigger SettlementOk(s, d)} :: d in c.deferred ==> SettlementOk(s, d))
    && c.doomed <= s.records.Keys
    && (c.owner.External? ==> c.deferred == map[])
    && (c.owner.ByWorker? ==> c.owner.op in s.workers)
    && (c.Stopping? ==> forall op {:trigger Unfinished1(s, op)} :: !Unfinished1(s, op))
    && (c.Stopping? ==> forall op :: op in s.workers ==> OwnsLoss(c, op))
  }

  // ---------------------------------------------------------------- truthful outcomes

  /** What a settled prompt may say of the turn it had: the state, evidence and error that the turn's
      own outcome calls for. */
  predicate FitsTurn(state: OperationState, result: Result, error: ErrorCode, outcome: TurnOutcome) {
    match state
    case Completed =>
      && outcome.TurnCompleted? && outcome.bindingMatches && outcome.observation.complete
      && result == PromptResult(outcome.observation) && error.NoError?
    case Failed =>
      && outcome.Terminal() && result == RetainedEvidence(outcome.observation)
      && if outcome.observation.complete then outcome.TurnFailed? && error.NativeTurnFailed? else error.EvidenceLimit?
    case Cancelled =>
      && outcome.TurnCancelled? && outcome.observation.complete
      && result == RetainedEvidence(outcome.observation) && error.NoError?
    case TimedOut =>
      && outcome.TurnCancelled?
      && result == RetainedEvidence(outcome.observation) && error.ExecutionDeadline?
    case _ => false
  }

  ghost predicate PromptTruth(s: State, op: OperationId)
    requires op in s.requests && op in s.records
  {
    var r := s.records[op];
    && (s.continuity.Current? ==> op !in s.unsettledAtLoss && !r.state.InDoubt?)
    && (s.continuity.Draining? || s.continuity.Stopping? ==>
          (op in s.unsettledAtLoss <==> !r.state.Terminal()) && !r.state.InDoubt?)
    && (s.continuity.Closed? ==> (op in s.unsettledAtLoss <==> r.state.InDoubt?))
    && (r.state.Terminal() && !r.state.InDoubt? && !r.result.CancelledPreDispatch? ==>
          op in s.turns && s.turns[op].phase.Done? && FitsTurn(r.state, r.result, r.error, s.turns[op].phase.outcome))
    && (r.state.InDoubt? ==> r.result.RetainedEvidence?)
    && (r.result.CancelledPreDispatch? ==> op !in s.turns && r.state.Cancelled?)
  }

  /** A completed cancellation names the final state of its target, unless its grace expired
      after the target had settled. */
  ghost predicate ReceiptTruth(s: State, op: OperationId)
    requires op in s.records
  {
    var r := s.records[op];
    && (r.kind.CancelRequest? && r.state.Completed? ==>
          && r.result.CancelReceipt?
          && r.target.Some? && r.target.value in s.records
          && s.records[r.target.value].state.Terminal()
          && (op !in s.staleExpiries <==> r.result.target == s.records[r.target.value].state))
    && (op in s.staleExpiries ==>
          && r.kind.CancelRequest?
          && r.target.Some? && r.target.value in s.requests && r.target.value in s.records
          && s.records[r.target.value].state.Terminal()
          && !s.records[r.target.value].state.InDoubt?)
  }

  ghost predicate Truth(s: State)
    requires Shape(s)
  {
    && (forall op {:trigger PromptTruth(s, op)} :: op in s.requests ==> PromptTruth(s, op))
    && (forall op {:trigger ReceiptTruth(s, op)} :: op in s.records ==> ReceiptTruth(s, op))
    && s.unsettledAtLoss <= s.requests.Keys
    && s.staleExpiries <= s.records.Keys
    && (s.continuity.Current? ==> s.staleExpiries == {})
  }

  // ---------------------------------------------------------------- sessions

  ghost predicate SessionOk(s: State, sid: SessionId)
    requires sid in s.sessions
  {
    var x := s.sessions[sid];
    match x.active
    case Some(op) =>
      && op in s.records && !s.records[op].state.Terminal() && s.records[op].session == sid
      && ((s.records[op].kind.Prompt? && x.state.Busy?) || (s.records[op].kind.RetireSession? && x.state.Retiring?))
    case None => x.state.Ready? || x.state.NonReusable? || x.state.Retired?
  }

  ghost predicate Engaged(s: State, op: OperationId)
    requires op in s.records
  {
    !s.records[op].state.Terminal() && (s.records[op].kind.Prompt? || s.records[op].kind.RetireSession?)
  }

  ghost predicate EngagedOk(s: State, op: OperationId)
    requires op in s.records
  {
    Engaged(s, op) ==>
      && s.records[op].session in s.sessions
      && s.sessions[s.records[op].session].active == Some(op)
      && (op in s.requests ==>
            PhaseAllowed(s.sessions[s.records[op].session].instructions, s.requests[op]))
  }

  ghost predicate InstructionsOk(s: State, sid: SessionId)
    requires sid in s.sessions
  {
    WellFormed(s.sessions[sid].instructions)
  }

  ghost predicate InitialDone(s: State, op: OperationId) {
    op in s.requests && op in s.records && s.requests[op].phase.Initial? && s.records[op].state.Completed?
  }

  ghost predicate Sessions(s: State)
    requires Shape(s)
  {
    && (s.continuity.Current? ==> forall sid {:trigger SessionOk(s, sid)} :: sid in s.sessions ==> SessionOk(s, sid))
    && (s.continuity.Current? ==> forall op {:trigger EngagedOk(s, op)} :: op in s.records ==> EngagedOk(s, op))
    && (forall sid {:trigger InstructionsOk(s, sid)} :: sid in s.sessions ==> InstructionsOk(s, sid))
    && (forall op {:trigger InitialDone(s, op)} :: InitialDone(s, op) ==>
          s.requests[op].session in s.sessions && s.sessions[s.requests[op].session].instructions.Submitted?)
    && (forall a, b | InitialDone(s, a) && InitialDone(s, b) && s.requests[a].session == s.requests[b].session :: a == b)
  }

  // ---------------------------------------------------------------- reservations

  ghost predicate ReleasedOk(s: State, op: OperationId)
    requires op in s.records
  {
    op in s.released <==> s.records[op].state.Terminal()
  }

  ghost predicate Reserved(s: State)
    requires Shape(s)
  {
    && s.released <= s.requests.Keys
    && s.reservations == |s.requests.Keys - s.released|
    && s.reservations <= s.limits.maxQueuedPrompts + 1
    && (s.continuity.Current? ==>
          forall op {:trigger ReleasedOk(s, op)} :: op in s.requests ==> ReleasedOk(s, op))
  }

  ghost predicate Inv(s: State) {
    Shape(s) && Tasks(s) && Owned(s) && Truth(s) && Sessions(s) && Reserved(s)
  }

  lemma InitHolds(limits: Limits)
    ensures Inv(Init(limits))
  {
  }

  // ---------------------------------------------------------------- what a step never undoes

  function Rank(c: Continuity): nat {
    match c
    case Current => 0
    case Draining(_, _, _, _) => 1
    case Stopping(_, _, _, _) => 2
    case Closed(_, _) => 3
  }

  /** Records are never forgotten and keep their identity, and a terminal outcome is
      permanent; after the loss none appears before publication. */
  ghost predicate RecordProgress(s: State, s': State, op: OperationId)
    requires op in s.records
  {
    && op in s'.records
    && s'.records[op].SameIdentity(s.records[op])
    && (s.records[op].state.Terminal() ==> s'.records[op] == s.records[op])
    && (!s.records[op].state.Terminal() && !s.continuity.Current? && s'.records[op].state.Terminal() ==>
          s'.continuity.Closed?)
  }

  ghost predicate SessionProgress(s: State, s': State, sid: SessionId)
    requires sid in s.sessions
  {
    && sid in s'.sessions
    && (s.sessions[sid].instructions.Submitted? ==> s'.sessions[sid].instructions.Submitted?)
    && (s'.continuity.Current? && s.sessions[sid].state.Retired? ==> s'.sessions[sid] == s.sessions[sid])
  }

  ghost predicate Progress(s: State, s': State) {
    && s'.limits == s.limits
    && (forall op {:trigger RecordProgress(s, s', op)} :: op in s.records ==> RecordProgress(s, s', op))
    && (forall sid {:trigger SessionProgress(s, s', sid)} :: sid in s.sessions ==> SessionProgress(s, s', sid))
    && Rank(s.continuity) <= Rank(s'.continuity)
    && (s.continuity.Closed? ==> s'.continuity == s.continuity)
    && (!s.continuity.Current? ==>
          && s'.started == s.started && s'.requests == s.requests && s'.turns.Keys == s.turns.Keys
          && s'.records.Keys == s.records.Keys && s'.unsettledAtLoss == s.unsettledAtLoss)
    && s.started <= s'.started
  }

  ghost predicate Kept(s: State, s': State) {
    Inv(s') && Progress(s, s')
  }

  lemma ProgressTransitive(a: State, b: State, c: State)
    requires Progress(a, b) && Progress(b, c)
    ensures Progress(a, c)
  {
    forall op | op in a.records ensures RecordProgress(a, c, op) {
      assert RecordProgress(a, b, op) && RecordProgress(b, c, op);
    }
    forall sid | sid in a.sessions ensures SessionProgress(a, c, sid) {
      assert SessionProgress(a, b, sid) && SessionProgress(b, c, sid);
    }
  }
}
