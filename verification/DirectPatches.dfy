/** A step that touches one operation keeps the invariants when it keeps them there. */
module DirectPatches {
  import opened Basics
  import opened DirectState
  import opened DirectProtocol
  import opened DirectInvariants

  ghost predicate SameElsewhere<V>(a: map<OperationId, V>, b: map<OperationId, V>, op: OperationId) {
    forall o :: o != op ==> (o in a <==> o in b) && (o in a ==> a[o] == b[o])
  }

  /** Only operation `op`, its session and the lock may differ. */
  ghost predicate Patch(s: State, s': State, op: OperationId) {
    && s'.limits == s.limits && s'.continuity == s.continuity
    && s'.unsettledAtLoss == s.unsettledAtLoss && s'.staleExpiries == s.staleExpiries
    && op in s'.records
    && SameElsewhere(s.records, s'.records, op)
    && SameElsewhere(s.requests, s'.requests, op)
    && SameElsewhere(s.workers, s'.workers, op)
    && SameElsewhere(s.turns, s'.turns, op)
    && (op in s.records ==>
          && s'.records[op].SameIdentity(s.records[op])
          && (s.records[op].state.Terminal() ==> s'.records[op] == s.records[op]))
    && (op in s.requests ==> op in s'.requests && s'.requests[op] == s.requests[op])
    && (op in s.turns ==> op in s'.turns)
    && (!s.continuity.Current? ==> s'.started == s.started && s'.turns.Keys == s.turns.Keys)
    && (forall o :: o != op ==> (o in s'.tracked <==> o in s.tracked))
    && (forall o :: o != op ==> (o in s'.released <==> o in s.released))
    && s.released <= s'.released
    && (forall sid | sid in s.sessions :: sid in s'.sessions)
    && (forall sid | sid in s'.sessions && sid != s'.records[op].session ::
          sid in s.sessions && s'.sessions[sid] == s.sessions[sid])
    && (s'.lock == s.lock || (s.lock in {None, Some(op)} && s'.lock in {None, Some(op)}))
    && (s'.started == s.started || (op !in s.started && s'.started == s.started + [op]))
    && (!s.continuity.Current? ==> s'.records == s.records && s'.requests == s.requests)
  }

  ghost predicate LocalShape(s': State, op: OperationId) {
    && op in s'.records && RecordShape(s', op)
    && (op in s'.tracked ==> op in s'.turns)
    && (op in s'.turns ==> op in s'.requests)
  }

  lemma PatchShape(s: State, s': State, op: OperationId)
    requires Shape(s) && Patch(s, s', op) && LocalShape(s', op)
    ensures Shape(s')
  {
    forall o | o in s'.records ensures RecordShape(s', o) {
      if o != op { assert RecordShape(s, o); }
    }
  }

  ghost predicate LocalTasks(s: State, s': State, op: OperationId)
    requires op in s'.records
  {
    && (op in s'.workers ==> WorkerOk(s', op))
    && (op in s'.turns ==> TurnOk(s', op))
    && LockOk(s')
    && (Unfinished1(s', op) ==> Unfinished1(s, op) || (s.continuity.Current? && s.lock.None?))
    && (op in s'.started ==> op in s'.turns)
  }

  lemma PatchTasks(s: State, s': State, op: OperationId)
    requires Shape(s) && Tasks(s) && Patch(s, s', op) && Shape(s') && LocalTasks(s, s', op)
    ensures Tasks(s')
  {
    forall o | o in s'.workers ensures WorkerOk(s', o) {
      if o != op { assert WorkerOk(s, o); }
    }
    forall o | o in s'.turns ensures TurnOk(s', o) {
      if o != op { assert TurnOk(s, o); }
    }
    PatchUnfinished(s, s', op);
  }

  lemma PatchUnfinished(s: State, s': State, op: OperationId)
    requires Shape(s) && Tasks(s) && Patch(s, s', op) && LocalTasks(s, s', op)
    ensures forall a, b | Unfinished1(s', a) && Unfinished1(s', b) :: a == b
  {
    forall a, b | Unfinished1(s', a) && Unfinished1(s', b) ensures a == b {
      if a != op { assert Unfinished1(s, a) && TurnOk(s, a); }
      if b != op { assert Unfinished1(s, b) && TurnOk(s, b); }
    }
  }

  ghost predicate LocalOwned(s: State, s': State, op: OperationId)
    requires op in s'.records
  {
    if s.continuity.Current? then s'.records[op].state.Terminal() || op in s'.workers
    else
      && s'.workers.Keys <= s.workers.Keys
      && (op in s'.workers || !OwnsLoss(s.continuity, op))
      && (Unfinished1(s', op) ==> Unfinished1(s, op))
  }

  lemma PatchOwned(s: State, s': State, op: OperationId)
    requires Shape(s) && Owned(s) && Patch(s, s', op) && Shape(s') && LocalOwned(s, s', op)
    ensures Owned(s')
  {
    var c := s.continuity;
    if c.Draining? || c.Stopping? {
      if c.Stopping? {
        forall o ensures !Unfinished1(s', o) { assert !Unfinished1(s, o); }
      }
      forall d | d in c.deferred ensures SettlementOk(s', d) { assert SettlementOk(s, d); }
    }
    forall o | o in s'.records ensures HasOwner(s', o) {
      if o in s.records { assert HasOwner(s, o); }
    }
  }

  ghost predicate LocalTruth(s: State, s': State, op: OperationId)
    requires op in s'.records
  {
    && (op in s'.requests ==> PromptTruth(s', op))
    && ReceiptTruth(s', op)
  }

  lemma PatchTruth(s: State, s': State, op: OperationId)
    requires Shape(s) && Truth(s) && Patch(s, s', op) && Shape(s') && LocalTruth(s, s', op)
    ensures Truth(s')
  {
    forall o | o in s'.requests ensures PromptTruth(s', o) {
      if o != op { assert RecordShape(s, o) && PromptTruth(s, o); }
    }
    forall o | o in s'.records ensures ReceiptTruth(s', o) {
      if o != op { assert RecordShape(s, o) && ReceiptTruth(s, o); }
    }
  }

  /** Either the operation owns its session or the session is left alone. */
  ghost predicate LocalSessions(s: State, s': State, op: OperationId)
    requires op in s'.records && s'.records[op].session in s'.sessions
  {
    var sid := s'.records[op].session;
    && (s.continuity.Current? ==> SessionOk(s', sid) && EngagedOk(s', op))
    && InstructionsOk(s', sid)
    && (s.continuity.Current? && sid in s.sessions && s.sessions[sid].state.Retired? ==>
          s'.sessions[sid] == s.sessions[sid])
    && (sid in s.sessions ==>
          || s'.sessions[sid] == s.sessions[sid]
          || s.sessions[sid].active == None
          || s.sessions[sid].active == Some(op)
          || !s.continuity.Current?)
    && (sid in s.sessions && s.sessions[sid].instructions.Submitted? ==> s'.sessions[sid].instructions.Submitted?)
    && (InitialDone(s', op) && !InitialDone(s, op) ==>
          && s'.sessions[sid].instructions.Submitted?
          && sid in s.sessions && s.sessions[sid].instructions.Pending?)
  }

  lemma PatchSessions(s: State, s': State, op: OperationId)
    requires Shape(s) && Sessions(s) && Patch(s, s', op) && Shape(s')
    requires s'.records[op].session in s'.sessions && LocalSessions(s, s', op)
    ensures Sessions(s')
  {
    var here := s'.records[op].session;
    if s.continuity.Current? {
      forall sid | sid in s'.sessions ensures SessionOk(s', sid) {
        if sid != here { assert SessionOk(s, sid); }
      }
      forall o | o in s'.records ensures EngagedOk(s', o) {
        if o != op { assert RecordShape(s, o) && EngagedOk(s, o); }
      }
    }
    forall sid | sid in s'.sessions ensures InstructionsOk(s', sid) {
      if sid != here { assert InstructionsOk(s, sid); }
    }
    PatchInitials(s, s', op);
  }

  lemma PatchInitials(s: State, s': State, op: OperationId)
    requires Shape(s) && Sessions(s) && Patch(s, s', op) && Shape(s')
    requires s'.records[op].session in s'.sessions && LocalSessions(s, s', op)
    ensures forall o | InitialDone(s', o) ::
              s'.requests[o].session in s'.sessions && s'.sessions[s'.requests[o].session].instructions.Submitted?
    ensures forall a, b | InitialDone(s', a) && InitialDone(s', b) && s'.requests[a].session == s'.requests[b].session :: a == b
  {
    assert RecordShape(s', op);
    forall o | InitialDone(s', o)
      ensures s'.requests[o].session in s'.sessions && s'.sessions[s'.requests[o].session].instructions.Submitted?
    {
      assert o != op ==> InitialDone(s, o);
    }
    forall a, b | InitialDone(s', a) && InitialDone(s', b) && s'.requests[a].session == s'.requests[b].session
      ensures a == b
    {
      if a != op { assert InitialDone(s, a); }
      if b != op { assert InitialDone(s, b); }
    }
  }

  ghost predicate LocalReserved(s: State, s': State, op: OperationId)
    requires op in s'.records
  {
    && (op in s'.released ==> op in s'.requests)
    && (s.continuity.Current? && op in s'.requests ==> ReleasedOk(s', op))
    && s'.reservations == s.reservations
         + (if op in s'.requests && op !in s.requests then 1 else 0)
         - (if op in s'.released && op !in s.released then 1 else 0)
    && (op in s'.requests && op !in s.requests ==> s'.reservations <= s.limits.maxQueuedPrompts + 1)
  }

  lemma OneElementApart(a: set<OperationId>, b: set<OperationId>, x: OperationId)
    requires forall o :: o != x ==> (o in a <==> o in b)
    ensures |b| == |a| + (if x in b && x !in a then 1 else 0) - (if x in a && x !in b then 1 else 0)
  {
    if x in a && x !in b {
      assert b == a - {x};
    } else if x in b && x !in a {
      assert b == a + {x};
    } else {
      assert b == a;
    }
  }

  lemma PatchReserved(s: State, s': State, op: OperationId)
    requires Shape(s) && Reserved(s) && Patch(s, s', op) && Shape(s') && LocalReserved(s, s', op)
    ensures Reserved(s')
  {
    if s.continuity.Current? {
      forall o | o in s'.requests ensures ReleasedOk(s', o) {
        if o != op { assert ReleasedOk(s, o); }
      }
    }
    OneElementApart(s.requests.Keys - s.released, s'.requests.Keys - s'.released, op);
  }

  ghost predicate Local(s: State, s': State, op: OperationId) {
    && LocalShape(s', op) && LocalTasks(s, s', op) && LocalOwned(s, s', op) && LocalTruth(s, s', op)
    && LocalSessions(s, s', op) && LocalReserved(s, s', op)
  }

  lemma PatchProgress(s: State, s': State, op: OperationId)
    requires Shape(s) && Shape(s') && Patch(s, s', op) && LocalShape(s', op) && LocalSessions(s, s', op)
    ensures Progress(s, s')
  {
    forall o | o in s.records ensures RecordProgress(s, s', o) {
      if o != op { assert RecordShape(s, o); }
    }
    forall sid | sid in s.sessions ensures SessionProgress(s, s', sid) {
    }
  }

  lemma PatchKeeps(s: State, s': State, op: OperationId)
    requires Inv(s) && Patch(s, s', op) && Local(s, s', op)
    ensures Kept(s, s')
  {
    PatchShape(s, s', op);
    PatchProgress(s, s', op);
    PatchTasks(s, s', op);
    PatchOwned(s, s', op);
    PatchTruth(s, s', op);
    PatchSessions(s, s', op);
    PatchReserved(s, s', op);
  }
}
