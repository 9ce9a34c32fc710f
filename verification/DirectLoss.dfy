/** Losing continuity: quarantine, cleanup and publication keep the invariants. */
module DirectLoss {
  import opened Basics
  import opened DirectState
  import opened DirectProtocol
  import opened DirectInvariants
  import opened DirectPatches
  import opened DirectSteps

  // ---------------------------------------------------------------- quarantine

  /** What a worker may have done in the step in which it quarantines: let go of the lock,
      forgotten finished collectors, touched session states. */
  ghost predicate Loosened(s: State, s1: State, owner: Owner) {
    && (s1.lock == s.lock || (owner.ByWorker? && s.lock == Some(owner.op)))
    && s1 == s.(lock := s1.lock, tracked := s1.tracked, sessions := s1.sessions)
    && s1.sessions.Keys == s.sessions.Keys
    && (forall sid | sid in s.sessions :: s1.sessions[sid].instructions == s.sessions[sid].instructions)
    && s1.tracked <= s.tracked
    && (forall op | op in s.tracked && op !in s1.tracked :: op in s.turns && s.turns[op].phase.Done?)
  }

  ghost predicate MayDefer(s: State, owner: Owner, deferred: map<OperationId, Settlement>, stale: set<OperationId>) {
    match owner
    case External => deferred == map[] && stale == {}
    case ByWorker(op) =>
      && op in s.workers && op in s.records && op in deferred
      && !s.records[op].state.Terminal()
      && (s.records[op].kind.CancelRequest? ==>
            && s.records[op].state.Running? && s.records[op].target.Some? && s.records[op].target.value in s.requests
            && deferred.Keys == {op, s.records[op].target.value}
            && Uncertain(deferred[s.records[op].target.value])
            && (deferred[op].state.Failed?
                || (deferred[op].state.Completed? && deferred[op].result == CancelReceipt(InDoubt, true)))
            && s.records[op].target.value in s.records
            && stale == (if deferred[op].state.Completed? && s.records[s.records[op].target.value].state.Terminal()
                         then {op} else {}))
      && (!s.records[op].kind.CancelRequest? ==>
            deferred.Keys == {op} && Uncertain(deferred[op]) && stale == {})
  }

  function Lose(s1: State, owner: Owner, deferred: map<OperationId, Settlement>, stale: set<OperationId>): State {
    Quarantine(s1, owner, deferred).(staleExpiries := stale)
  }

  lemma LoseShape(s: State, s1: State, owner: Owner, deferred: map<OperationId, Settlement>, stale: set<OperationId>)
    requires Shape(s) && Loosened(s, s1, owner)
    ensures Shape(Lose(s1, owner, deferred, stale))
  {
    var s' := Lose(s1, owner, deferred, stale);
    assert s'.sessions.Keys == s.sessions.Keys;
    forall op | op in s'.records ensures RecordShape(s', op) { assert RecordShape(s, op); }
  }

  lemma LoseTasks(s: State, s1: State, owner: Owner, deferred: map<OperationId, Settlement>, stale: set<OperationId>)
    requires Shape(s) && Tasks(s) && s.continuity.Current? && Loosened(s, s1, owner)
    requires owner.ByWorker? ==> owner.op in s.workers
    requires Shape(Lose(s1, owner, deferred, stale))
    ensures Tasks(Lose(s1, owner, deferred, stale))
  {
    var s' := Lose(s1, owner, deferred, stale);
    forall op | op in s'.workers ensures WorkerOk(s', op) {
      assert WorkerOk(s, op);
    }
    forall op | op in s'.turns ensures TurnOk(s', op) { assert TurnOk(s, op); }
    forall a, b | Unfinished1(s', a) && Unfinished1(s', b) ensures a == b {
      assert Unfinished1(s, a) && Unfinished1(s, b);
    }
  }

  lemma LoseOwned(s: State, s1: State, owner: Owner, deferred: map<OperationId, Settlement>, stale: set<OperationId>)
    requires Shape(s) && Truth(s) && s.continuity.Current? && Loosened(s, s1, owner) && MayDefer(s, owner, deferred, stale)
    requires Shape(Lose(s1, owner, deferred, stale))
    ensures Owned(Lose(s1, owner, deferred, stale))
  {
    var s' := Lose(s1, owner, deferred, stale);
    forall op | op in s'.records ensures HasOwner(s', op) {
    }
    forall d | d in deferred ensures SettlementOk(s', d) {
      assert RecordShape(s, owner.op);
      if d in s.records { assert RecordShape(s, d); }
    }
  }

  lemma LoseTruth(s: State, s1: State, owner: Owner, deferred: map<OperationId, Settlement>, stale: set<OperationId>)
    requires Shape(s) && Truth(s) && s.continuity.Current? && Loosened(s, s1, owner) && MayDefer(s, owner, deferred, stale)
    requires Shape(Lose(s1, owner, deferred, stale))
    ensures Truth(Lose(s1, owner, deferred, stale))
  {
    var s' := Lose(s1, owner, deferred, stale);
    forall op | op in s'.requests ensures PromptTruth(s', op) {
      assert PromptTruth(s, op) && RecordShape(s, op);
    }
    forall op | op in s'.records ensures ReceiptTruth(s', op) {
      assert ReceiptTruth(s, op) && RecordShape(s, op);
      if op in stale { assert PromptTruth(s, s.records[op].target.value); }
    }
    forall op | op in s'.unsettledAtLoss ensures op in s'.requests { assert RecordShape(s, op); }
  }

  lemma LoseSessions(s: State, s1: State, owner: Owner, deferred: map<OperationId, Settlement>, stale: set<OperationId>)
    requires Shape(s) && Sessions(s) && Loosened(s, s1, owner)
    requires Shape(Lose(s1, owner, deferred, stale))
    ensures Sessions(Lose(s1, owner, deferred, stale))
  {
    var s' := Lose(s1, owner, deferred, stale);
    forall sid | sid in s'.sessions ensures InstructionsOk(s', sid) { assert InstructionsOk(s, sid); }
    forall o | InitialDone(s', o)
      ensures s'.requests[o].session in s'.sessions && s'.sessions[s'.requests[o].session].instructions.Submitted?
    {
      assert InitialDone(s, o);
    }
    forall a, b | InitialDone(s', a) && InitialDone(s', b) && s'.requests[a].session == s'.requests[b].session
      ensures a == b
    {
      assert InitialDone(s, a) && InitialDone(s, b);
    }
  }

  lemma LoseKeeps(s: State, s1: State, owner: Owner, deferred: map<OperationId, Settlement>, stale: set<OperationId>)
    requires Inv(s) && s.continuity.Current? && Loosened(s, s1, owner) && MayDefer(s, owner, deferred, stale)
    ensures Kept(s, Lose(s1, owner, deferred, stale))
  {
    LoseShape(s, s1, owner, deferred, stale);
    LoseTasks(s, s1, owner, deferred, stale);
    LoseOwned(s, s1, owner, deferred, stale);
    LoseTruth(s, s1, owner, deferred, stale);
    LoseSessions(s, s1, owner, deferred, stale);
    LoseProgress(s, s1, owner, deferred, stale);
  }

  lemma LoseProgress(s: State, s1: State, owner: Owner, deferred: map<OperationId, Settlement>, stale: set<OperationId>)
    requires Shape(s) && s.continuity.Current? && Loosened(s, s1, owner)
    ensures Progress(s, Lose(s1, owner, deferred, stale))
  {
    var s' := Lose(s1, owner, deferred, stale);
    forall op | op in s.records ensures RecordProgress(s, s', op) { }
    forall sid | sid in s.sessions ensures SessionProgress(s, s', sid) { }
  }

  // ---------------------------------------------------------------- workers that quarantine

  lemma AbandonForm(s: State, sessions: map<SessionId, Session>, op: OperationId, result: Result, error: ErrorCode)
    requires s.staleExpiries == {}
    ensures AbandonPrompt(s.(sessions := sessions), op, result, error)
         == Lose(PopDone(s.(sessions := sessions), op).(lock := None), ByWorker(op),
                 map[op := Settlement(InDoubt, result, error)], {})
  {
    hide LostSessions, CancelledWorkers, CancelledTurns, Unfinished;
  }

  lemma AbandonLoosens(s: State, sessions: map<SessionId, Session>, op: OperationId)
    requires Loosened(s, s.(sessions := sessions), ByWorker(op)) && s.lock == Some(op)
    ensures Loosened(s, PopDone(s.(sessions := sessions), op).(lock := None), ByWorker(op))
  {
  }

  lemma AbandonDefers(s: State, op: OperationId, result: Result, error: ErrorCode)
    requires Shape(s) && op in s.workers && op in s.requests && !s.records[op].state.Terminal()
    requires result.NoResult? || result.RetainedEvidence?
    ensures MayDefer(s, ByWorker(op), map[op := Settlement(InDoubt, result, error)], {})
  {
    assert RecordShape(s, op);
  }

  lemma AbandonKeeps(s: State, sessions: map<SessionId, Session>, op: OperationId, at: Point, result: Result, error: ErrorCode)
    requires Inv(s) && PromptAt(s, op, at) && !at.Settling? && !s.records[op].state.Terminal()
    requires s.lock == Some(op) && (result.NoResult? || result.RetainedEvidence?)
    requires Loosened(s, s.(sessions := sessions), ByWorker(op))
    ensures Kept(s, AbandonPrompt(s.(sessions := sessions), op, result, error))
  {
    UndisturbedWorker(s, op);
    assert s.staleExpiries == {};
    AbandonLoosens(s, sessions, op);
    AbandonDefers(s, op, result, error);
    hide Inv, Kept, AbandonPrompt, Lose, Loosened, MayDefer;
    AbandonForm(s, sessions, op, result, error);
    LoseKeeps(s, PopDone(s.(sessions := sessions), op).(lock := None), ByWorker(op),
              map[op := Settlement(InDoubt, result, error)], {});
  }

  /** As before, but the lock stays held while the loss is settled. */
  lemma HoldAndLoseKeeps(s: State, s1: State, op: OperationId, at: Point, settlement: Settlement)
    requires Inv(s) && op in s.workers && s.workers[op] == Worker(at, false) && !at.Settling?
    requires op in s.records && !s.records[op].state.Terminal() && !s.records[op].kind.CancelRequest?
    requires Uncertain(settlement)
    requires Loosened(s, s1, ByWorker(op))
    ensures Kept(s, Quarantine(s1, ByWorker(op), map[op := settlement]))
  {
    UndisturbedWorker(s, op);
    LoseKeeps(s, s1, ByWorker(op), map[op := settlement], {});
    assert Lose(s1, ByWorker(op), map[op := settlement], {}) == Quarantine(s1, ByWorker(op), map[op := settlement]);
  }

  lemma CancelLossKeeps(s: State, op: OperationId, at: Point, target: OperationId, deferred: map<OperationId, Settlement>,
                        stale: set<OperationId>)
    requires Inv(s) && ControlAt(s, op, CancelRequest, at) && (at.SendCancel? || at.AwaitTarget?)
    requires target == s.records[op].target.value
    requires deferred.Keys == {op, target} && Uncertain(deferred[target])
    requires deferred[op].state.Failed? || (deferred[op].state.Completed? && deferred[op].result == CancelReceipt(InDoubt, true))
    requires stale == (if deferred[op].state.Completed? && s.records[target].state.Terminal() then {op} else {})
    ensures Kept(s, Lose(MarkNonReusable(s, s.records[op].session), ByWorker(op), deferred, stale))
  {
    UndisturbedWorker(s, op);
    LoseKeeps(s, MarkNonReusable(s, s.records[op].session), ByWorker(op), deferred, stale);
  }

  lemma ExternalLossKeeps(s: State)
    requires Inv(s) && s.continuity.Current?
    ensures Kept(s, Quarantine(s, External, map[]))
  {
    LoseKeeps(s, s, External, map[], {});
    assert Lose(s, External, map[], {}) == Quarantine(s, External, map[]);
  }

  // ---------------------------------------------------------------- cleanup

  /** What the end of a task may touch after the loss. */
  lemma UnwindEffect(s: State, op: OperationId)
    requires UnwindReady(s, op) && !s.continuity.Current?
    ensures
      var s' := Unwind(s, op);
      && s' == s.(sessions := s'.sessions, workers := s'.workers, lock := s'.lock, tracked := s'.tracked,
                  released := s'.released, reservations := s'.reservations)
      && (s'.workers == s.workers - {op} || s' == s)
      && ((s.records[op].kind.Prompt? <==> op in s.requests) ==> s'.workers == s.workers - {op})
      && s'.sessions.Keys == s.sessions.Keys
      && (forall sid | sid in s.sessions :: s'.sessions[sid].instructions == s.sessions[sid].instructions)
      && (forall sid | sid in s.sessions && sid != s.records[op].session && sid != UnwoundSession(s, op) ::
            s'.sessions[sid] == s.sessions[sid])
      && (s'.lock == s.lock || (s.lock == Some(op) && s'.lock == None))
      && (s'.tracked == s.tracked || (Finished(s, op) && s'.tracked == s.tracked - {op}))
      && ((s'.released == s.released && s'.reservations == s.reservations)
          || (op in s.requests && op !in s.released && s'.released == s.released + {op}
              && s'.reservations == s.reservations - 1))
  {
    if s.workers[op].at.Scheduled? || !s.records[op].kind.Prompt? {
      hide FinishPrompt;
    } else {
      hide FinishRetire;
    }
  }

  ghost predicate Finished(s: State, op: OperationId) {
    op in s.turns && s.turns[op].phase.Done?
  }

  function UnwoundSession(s: State, op: OperationId): SessionId
    requires op in s.records
  {
    if op in s.requests then s.requests[op].session else s.records[op].session
  }

  lemma UnwindPatches(s: State, op: OperationId)
    requires Shape(s) && UnwindReady(s, op) && !s.continuity.Current?
    ensures Patch(s, Unwind(s, op), op)
  {
    UnwindEffect(s, op);
    assert RecordShape(s, op);
  }

  lemma UnwindLocal(s: State, op: OperationId)
    requires Inv(s) && UnwindReady(s, op) && s.workers[op].cancelled
    ensures !s.continuity.Current? && Local(s, Unwind(s, op), op)
  {
    assert WorkerOk(s, op) && RecordShape(s, op) && ReceiptTruth(s, op);
    UnwindEffect(s, op);
    assert InstructionsOk(s, s.records[op].session);
    assert InstructionsOk(Unwind(s, op), s.records[op].session);
    if op in s.requests { assert PromptTruth(s, op); }
    if op in s.turns { assert TurnOk(s, op); }
  }

  lemma UnwindKeeps(s: State, op: OperationId)
    requires Inv(s) && UnwindReady(s, op) && s.workers[op].cancelled
    ensures Kept(s, Unwind(s, op))
  {
    UnwindLocal(s, op);
    UnwindPatches(s, op);
    PatchKeeps(s, Unwind(s, op), op);
  }

  lemma DrainedRecords(s: State)
    requires Inv(s) && Drained(s)
    ensures var s' := s.(continuity := ToStopping(s.continuity)); Shape(s') && Truth(s')
  {
    hide Tasks, Owned, Sessions, Reserved;
    var s' := s.(continuity := ToStopping(s.continuity));
    forall op | op in s'.records ensures RecordShape(s', op) && ReceiptTruth(s', op) {
      assert RecordShape(s, op) && ReceiptTruth(s, op);
    }
    forall op | op in s'.requests ensures PromptTruth(s', op) { assert RecordShape(s, op) && PromptTruth(s, op); }
  }

  lemma DrainedOwned(s: State)
    requires Inv(s) && Drained(s)
    ensures Owned(s.(continuity := ToStopping(s.continuity)))
    ensures forall d | d in s.continuity.deferred :: s.continuity.deferred[d].state.Terminal()
  {
    hide Truth, Sessions, Reserved;
    var s' := s.(continuity := ToStopping(s.continuity));
    forall op | op in s'.records ensures HasOwner(s', op) { assert HasOwner(s, op); }
    forall d | d in s.continuity.deferred ensures SettlementOk(s', d) { assert SettlementOk(s, d); }
    forall op ensures !Unfinished1(s', op) { if op in s.turns { assert TurnOk(s, op); } }
  }

  lemma DrainedTasks(s: State)
    requires Inv(s) && Drained(s)
    ensures var s' := s.(continuity := ToStopping(s.continuity)); Shape(s') ==> Tasks(s')
  {
    hide Truth, Sessions, Reserved;
    var s' := s.(continuity := ToStopping(s.continuity));
    forall op | op in s'.workers ensures WorkerOk(s', op) { assert WorkerOk(s, op); }
    forall op | op in s'.turns ensures TurnOk(s', op) { assert TurnOk(s, op); }
    forall op | Unfinished1(s', op) ensures Unfinished1(s, op) { }
  }

  lemma DrainedKeeps(s: State)
    requires Inv(s) && Drained(s)
    ensures Kept(s, s.(continuity := ToStopping(s.continuity)))
    ensures forall d | d in s.continuity.deferred :: s.continuity.deferred[d].state.Terminal()
  {
    var s' := s.(continuity := ToStopping(s.continuity));
    DrainedRecords(s);
    DrainedTasks(s);
    DrainedOwned(s);
    DrainedSessions(s);
    hide Shape, Tasks, Owned, Truth, Sessions, Reserved;
    forall op | op in s.records ensures RecordProgress(s, s', op) { }
    forall sid | sid in s.sessions ensures SessionProgress(s, s', sid) { }
  }

  lemma DrainedSessions(s: State)
    requires Shape(s) && Sessions(s) && Reserved(s) && Drained(s)
    ensures var s' := s.(continuity := ToStopping(s.continuity)); Shape(s') ==> Sessions(s') && Reserved(s')
  {
    var s' := s.(continuity := ToStopping(s.continuity));
    if Shape(s') {
      forall sid | sid in s'.sessions ensures InstructionsOk(s', sid) { assert InstructionsOk(s, sid); }
      forall a | InitialDone(s', a) ensures InitialDone(s, a) { }
    }
  }

  // ---------------------------------------------------------------- publication

  ghost predicate SameButSettled(s: State, f: State, failed: bool)
    requires Publishable(s)
  {
    && f.records.Keys == s.records.Keys
    && (forall op | op in s.records :: f.records[op] == PublishedRecord(s, op, failed))
    && f.continuity.Closed?
    && f.workers == map[]
    && f.requests == s.requests && f.turns == s.turns && f.started == s.started && f.limits == s.limits
    && f.unsettledAtLoss == s.unsettledAtLoss && f.staleExpiries == s.staleExpiries
    && f.tracked <= s.tracked
    && f.sessions.Keys == s.sessions.Keys
    && (forall sid | sid in s.sessions :: f.sessions[sid].instructions == s.sessions[sid].instructions)
    && ((f.released == s.released && f.reservations == s.reservations)
        || exists op :: op in s.requests && op !in s.released && f.released == s.released + {op}
                        && f.reservations == s.reservations - 1)
  }

  lemma PublishEffect(s: State, stopSettled: bool, failed: bool)
    requires Shape(s) && Owned(s) && Publishable(s)
    ensures SameButSettled(s, Publish(s, stopSettled, failed), failed)
  {
    var p := s.(records := map op | op in s.records :: PublishedRecord(s, op, failed),
                continuity := Closed(stopSettled, failed));
    match s.continuity.owner
    case External =>
      forall op | op in s.workers ensures false { }
      assert s.workers == map[];
    case ByWorker(op) =>
      assert RecordShape(s, op);
      assert UnwindReady(p, op);
      UnwindEffect(p, op);
      assert s.workers - {op} == map[];
  }

  lemma PublishRecord(s: State, f: State, failed: bool, op: OperationId)
    requires Shape(s) && Owned(s) && Publishable(s) && op in s.records
    requires op in f.records && f.records[op] == PublishedRecord(s, op, failed)
    ensures f.records[op].SameIdentity(s.records[op]) && f.records[op].state.Terminal()
    ensures s.records[op].state.Terminal() ==> f.records[op] == s.records[op]
    ensures !s.records[op].state.Terminal() && !s.records[op].kind.CancelRequest? ==>
              f.records[op].state.InDoubt? && (op in s.requests ==> f.records[op].result.RetainedEvidence?)
    ensures !s.records[op].state.Terminal() && s.records[op].kind.CancelRequest? && f.records[op].state.Completed? ==>
              && op in s.continuity.deferred && SettlementOk(s, op)
              && s.continuity.deferred[op].state.Completed?
              && f.records[op].result == CancelReceipt(InDoubt, true)
  {
    assert RecordShape(s, op) && HasOwner(s, op);
    if op in s.continuity.deferred { assert SettlementOk(s, op); }
  }

  lemma PublishShape(s: State, f: State, failed: bool)
    requires Shape(s) && Owned(s) && Publishable(s) && SameButSettled(s, f, failed)
    ensures Shape(f)
  {
    forall op | op in f.records ensures RecordShape(f, op) {
      assert RecordShape(s, op);
      PublishRecord(s, f, failed, op);
      if s.records[op].kind.CancelRequest? { PublishRecord(s, f, failed, s.records[op].target.value); }
    }
  }

  lemma PublishTasks(s: State, f: State, failed: bool)
    requires Shape(s) && Tasks(s) && Owned(s) && Publishable(s) && SameButSettled(s, f, failed) && Shape(f)
    ensures Tasks(f) && Owned(f)
  {
    forall op | op in f.turns ensures TurnOk(f, op) { assert TurnOk(s, op) && !Unfinished1(s, op); }
    forall op | Unfinished1(f, op) ensures Unfinished1(s, op) { }
    forall op | op in f.records ensures HasOwner(f, op) { PublishRecord(s, f, failed, op); }
  }

  lemma PublishReceipt(s: State, f: State, failed: bool, op: OperationId)
    requires Shape(s) && Owned(s) && Truth(s) && Publishable(s) && SameButSettled(s, f, failed) && op in s.records
    ensures ReceiptTruth(f, op)
  {
    assert RecordShape(s, op) && ReceiptTruth(s, op);
    PublishRecord(s, f, failed, op);
    if s.records[op].kind.CancelRequest? {
      var target := s.records[op].target.value;
      assert RecordShape(s, target);
      PublishRecord(s, f, failed, target);
      assert PromptTruth(s, target);
    }
  }

  lemma PublishTruth(s: State, f: State, failed: bool)
    requires Shape(s) && Owned(s) && Truth(s) && Publishable(s) && SameButSettled(s, f, failed) && Shape(f)
    ensures Truth(f)
  {
    forall op | op in f.requests ensures PromptTruth(f, op) {
      assert RecordShape(s, op) && PromptTruth(s, op);
      PublishRecord(s, f, failed, op);
    }
    forall op | op in f.records ensures ReceiptTruth(f, op) { PublishReceipt(s, f, failed, op); }
  }

  lemma PublishSessions(s: State, f: State, failed: bool)
    requires Shape(s) && Owned(s) && Sessions(s) && Reserved(s) && Publishable(s)
    requires SameButSettled(s, f, failed) && Shape(f)
    ensures Sessions(f) && Reserved(f)
  {
    forall sid | sid in f.sessions ensures InstructionsOk(f, sid) { assert InstructionsOk(s, sid); }
    forall o | InitialDone(f, o) ensures InitialDone(s, o) {
      assert RecordShape(s, o);
      PublishRecord(s, f, failed, o);
    }
    if f.released != s.released {
      var op :| op in s.requests && op !in s.released && f.released == s.released + {op};
      OneElementApart(s.requests.Keys - s.released, f.requests.Keys - f.released, op);
    }
  }

  lemma PublishKeeps(s: State, stopSettled: bool, failed: bool)
    requires Inv(s) && Publishable(s)
    ensures Kept(s, Publish(s, stopSettled, failed))
  {
    var f := Publish(s, stopSettled, failed);
    PublishEffect(s, stopSettled, failed);
    hide Publish, SameButSettled, Shape, Tasks, Owned, Truth, Sessions, Reserved, Progress;
    PublishShape(s, f, failed);
    PublishTasks(s, f, failed);
    PublishTruth(s, f, failed);
    PublishSessions(s, f, failed);
    PublishProgress(s, f, failed);
  }

  lemma PublishProgress(s: State, f: State, failed: bool)
    requires Inv(s) && Publishable(s) && SameButSettled(s, f, failed)
    ensures Progress(s, f)
  {
    forall op | op in s.records ensures RecordProgress(s, f, op) { PublishRecord(s, f, failed, op); }
    hide Inv;
    forall sid | sid in s.sessions ensures SessionProgress(s, f, sid) { }
  }
}
