/** Three runs in which the service says less than it seems to. */
module DirectCounterexamples {
  import opened Basics
  import opened DirectState
  import opened DirectProtocol
  import opened DirectTheorems
  import opened DirectEvidence

  /** One session and one prompt, admissible under the limits. */
  ghost predicate Admissible(limits: Limits, create: CreateRequest, prompt: PromptRequest) {
    && limits.maxSessions > 0 && limits.maxOperations > 2
    && create.pinned && create.sameWorkspace && create.modelAdvertised
    && prompt.pinned && prompt.op != create.op && prompt.session == create.session
    && prompt.timeout <= limits.maxExecutionTimeout && prompt.textBytes <= limits.maxPromptBytes
    && prompt.stableDigest == create.stableDigest
    && prompt.phase == Initial(create.stableDigest, prompt.contractDigest)
  }

  function PromptRecord(prompt: PromptRequest): Record {
    NewRecord(prompt.digest, Prompt, prompt.session, Some(prompt.invocation), None)
  }

  function CreateRecord(create: CreateRequest): Record {
    Record(create.digest, CreateSession, create.session, None, None, Completed, SessionAllocated, NoError)
  }

  function Submitted1(limits: Limits, create: CreateRequest, prompt: PromptRequest): State {
    State(limits, map[create.op := CreateRecord(create), prompt.op := PromptRecord(prompt)],
          map[create.session := Session(create.stableDigest, SessionState.Busy, Some(prompt.op), Pending)],
          map[prompt.op := prompt], map[prompt.op := Worker(Scheduled, false)], map[], {}, None, 1, {}, Current,
          [], {}, {})
  }

  function Created1(limits: Limits, create: CreateRequest): State {
    Init(limits).(
      records := map[create.op := CreateRecord(create)],
      sessions := map[create.session := Session(create.stableDigest, Ready, None, Pending)])
  }

  lemma CreateFirst(limits: Limits, create: CreateRequest, prompt: PromptRequest)
    requires Admissible(limits, create, prompt)
    ensures Step(Init(limits), Create(create, true, true)) == Created1(limits, create)
  {
  }

  lemma SubmitFirst(limits: Limits, create: CreateRequest, prompt: PromptRequest)
    requires Admissible(limits, create, prompt)
    ensures Step(Step(Init(limits), Create(create, true, true)), SubmitPrompt(prompt, true))
         == Submitted1(limits, create, prompt)
  {
    CreateFirst(limits, create, prompt);
    var s := Created1(limits, create);
    assert |s.records| == |s.records.Keys| == 1;
    hide AdmitCreate;
  }

  // ---------------------------------------------------------------- publication without stop

  function Lost1(limits: Limits, create: CreateRequest, prompt: PromptRequest, workers: map<OperationId, Worker>): State {
    Submitted1(limits, create, prompt).(
      sessions := map[create.session := Session(create.stableDigest, SessionState.Lost, Some(prompt.op), Pending)],
      workers := workers,
      continuity := Draining(External, {prompt.op}, map[], {}),
      unsettledAtLoss := {prompt.op})
  }

  lemma LoseFirst(limits: Limits, create: CreateRequest, prompt: PromptRequest)
    requires prompt.op != create.op
    ensures Step(Submitted1(limits, create, prompt), GenerationLost)
         == Lost1(limits, create, prompt, map[prompt.op := Worker(Scheduled, true)])
  {
  }

  lemma UnwindFirst(limits: Limits, create: CreateRequest, prompt: PromptRequest)
    requires prompt.op != create.op && prompt.session == create.session
    ensures Step(Lost1(limits, create, prompt, map[prompt.op := Worker(Scheduled, true)]), CancelledWorkerResumes(prompt.op))
         == Lost1(limits, create, prompt, map[])
  {
    var s := Lost1(limits, create, prompt, map[prompt.op := Worker(Scheduled, true)]);
    assert s.workers - {prompt.op} == map[];
  }

  lemma PublishFirst(limits: Limits, create: CreateRequest, prompt: PromptRequest)
    requires prompt.op != create.op
    ensures
      var f := Step(Lost1(limits, create, prompt, map[]), DrainingCallerCancelled);
      && prompt.op in f.records && f.records[prompt.op].state.InDoubt? && f.continuity == Closed(false, false)
  {
  }

  /** An outside caller that is cancelled while it drains publishes uncertainty although
      native `stop` was never called. */
  lemma PublicationWithoutStop(limits: Limits, create: CreateRequest, prompt: PromptRequest)
    requires Admissible(limits, create, prompt)
    ensures
      var f := Run(Init(limits), [Create(create, true, true), SubmitPrompt(prompt, true), GenerationLost,
                                  CancelledWorkerResumes(prompt.op), DrainingCallerCancelled]);
      && prompt.op in f.records && f.records[prompt.op].state.InDoubt?
      && f.continuity == Closed(false, false)
  {
    SubmitFirst(limits, create, prompt);
    LoseFirst(limits, create, prompt);
    UnwindFirst(limits, create, prompt);
    PublishFirst(limits, create, prompt);
    hide *;
    var events := [Create(create, true, true), SubmitPrompt(prompt, true), GenerationLost,
                   CancelledWorkerResumes(prompt.op), DrainingCallerCancelled];
    RunTwo(Init(limits), events);
    RunTwo(Submitted1(limits, create, prompt), events[2..]);
    RunTwo(Lost1(limits, create, prompt, map[]), events[4..]);
  }

  /** Peels two events, or the last one, off a run. */
  lemma RunTwo(s: State, events: seq<Event>)
    requires events != []
    ensures Run(s, events)
         == if |events| == 1 then Step(s, events[0]) else Run(Step(Step(s, events[0]), events[1]), events[2..])
  {
    hide Step;
    if |events| > 1 {
      assert events[1..][0] == events[1] && events[1..][1..] == events[2..];
    }
  }

  // ---------------------------------------------------------------- a receipt that is not true

  datatype Scene = Scene(prompt: Record, cancel: Record, session: Session, workers: map<OperationId, Worker>,
                         turn: Turn, tracked: set<OperationId>, lock: Option<OperationId>)

  /** The state in which the prompt's turn runs and a cancellation was admitted. */
  function Staged(limits: Limits, create: CreateRequest, prompt: PromptRequest, cancel: CancelCall, x: Scene): State {
    State(limits,
          map[create.op := CreateRecord(create), prompt.op := x.prompt, cancel.op := x.cancel],
          map[create.session := x.session], map[prompt.op := prompt], x.workers, map[prompt.op := x.turn],
          x.tracked, x.lock, 1, {}, Current, [prompt.op], {}, {})
  }

  function CancelRecord(prompt: PromptRequest, cancel: CancelCall): Record {
    NewRecord(cancel.digest, CancelRequest, prompt.session, None, Some(prompt.op))
  }

  ghost predicate Distinct(create: CreateRequest, prompt: PromptRequest, cancel: CancelCall) {
    && cancel.pinned && cancel.target == prompt.op
    && cancel.op != prompt.op && cancel.op != create.op && prompt.op != create.op
    && prompt.session == create.session
  }

  function Started1(limits: Limits, create: CreateRequest, prompt: PromptRequest, phase: TurnPhase): State {
    Submitted1(limits, create, prompt).(
      records := map[create.op := CreateRecord(create), prompt.op := PromptRecord(prompt).(state := OperationState.Running)],
      workers := map[prompt.op := Worker(AwaitTurn, false)],
      turns := map[prompt.op := Turn(phase, false)],
      tracked := {prompt.op}, lock := Some(prompt.op), started := if phase.Created? then [] else [prompt.op])
  }

  lemma StartFirst(limits: Limits, create: CreateRequest, prompt: PromptRequest)
    requires Admissible(limits, create, prompt)
    ensures Step(Submitted1(limits, create, prompt), Enter(prompt.op)) == Started1(limits, create, prompt, Created)
  {
  }

  lemma TurnFirst(limits: Limits, create: CreateRequest, prompt: PromptRequest)
    ensures Step(Started1(limits, create, prompt, Created), TurnStarts(prompt.op))
         == Started1(limits, create, prompt, TurnPhase.Running)
  {
  }

  function BusyScene(prompt: PromptRequest, create: CreateRequest, cancelRecord: Record, at: Worker, cancel: OperationId,
                     turn: TurnPhase): Scene
  {
    Scene(PromptRecord(prompt).(state := Cancelling), cancelRecord,
          Session(create.stableDigest, SessionState.Busy, Some(prompt.op), Pending),
          map[prompt.op := Worker(AwaitTurn, false), cancel := at], Turn(turn, false), {prompt.op}, Some(prompt.op))
  }

  lemma TouchRunning(limits: Limits, create: CreateRequest, prompt: PromptRequest)
    requires prompt.op != create.op
    ensures
      var s := Started1(limits, create, prompt, TurnPhase.Running);
      TouchTarget(s, prompt.op) == s.(records := map[
        create.op := CreateRecord(create), prompt.op := PromptRecord(prompt).(state := Cancelling)])
  {
  }

  lemma SubmitCancelStep(limits: Limits, create: CreateRequest, prompt: PromptRequest, cancel: CancelCall)
    requires Admissible(limits, create, prompt) && Distinct(create, prompt, cancel)
    ensures Step(Started1(limits, create, prompt, TurnPhase.Running), SubmitCancel(cancel, true))
         == Staged(limits, create, prompt, cancel,
                   BusyScene(prompt, create, CancelRecord(prompt, cancel), Worker(Scheduled, false), cancel.op, TurnPhase.Running))
  {
    var s := Started1(limits, create, prompt, TurnPhase.Running);
    assert s.records.Keys == {create.op, prompt.op};
    assert |s.records| == |s.records.Keys| == 2;
    TouchRunning(limits, create, prompt);
    hide TouchTarget;
  }

  lemma SendCancelSteps(limits: Limits, create: CreateRequest, prompt: PromptRequest, cancel: CancelCall)
    requires Distinct(create, prompt, cancel)
    ensures
      var entry := CancelRecord(prompt, cancel);
      var running := entry.(state := OperationState.Running);
      var s := Staged(limits, create, prompt, cancel,
                      BusyScene(prompt, create, entry, Worker(Scheduled, false), cancel.op, TurnPhase.Running));
      Step(Step(s, CancelStarts(cancel.op)), CancelReturns(cancel.op, true))
      == Staged(limits, create, prompt, cancel,
                BusyScene(prompt, create, running, Worker(AwaitTarget, false), cancel.op, TurnPhase.Running))
  {
    var entry := CancelRecord(prompt, cancel);
    var running := entry.(state := OperationState.Running);
    var s := Staged(limits, create, prompt, cancel,
                    BusyScene(prompt, create, entry, Worker(Scheduled, false), cancel.op, TurnPhase.Running));
    assert Step(s, CancelStarts(cancel.op))
        == Staged(limits, create, prompt, cancel,
                  BusyScene(prompt, create, running, Worker(SendCancel, false), cancel.op, TurnPhase.Running));
  }

  function SettledScene(prompt: PromptRequest, create: CreateRequest, cancel: CancelCall, o: Observation): Scene {
    Scene(PromptRecord(prompt).(state := Cancelled, result := RetainedEvidence(o)),
          CancelRecord(prompt, cancel).(state := OperationState.Running),
          Session(create.stableDigest, NonReusable, None, Pending),
          map[cancel.op := Worker(AwaitTarget, false)],
          Turn(Done(TurnCancelled(o)), false), {}, None)
  }

  lemma TurnCancelledStep(limits: Limits, create: CreateRequest, prompt: PromptRequest, cancel: CancelCall, o: Observation)
    requires Distinct(create, prompt, cancel)
    ensures
      var running := CancelRecord(prompt, cancel).(state := OperationState.Running);
      Step(Staged(limits, create, prompt, cancel,
                  BusyScene(prompt, create, running, Worker(AwaitTarget, false), cancel.op, TurnPhase.Running)),
           TurnEnds(prompt.op, TurnCancelled(o)))
      == Staged(limits, create, prompt, cancel,
                BusyScene(prompt, create, running, Worker(AwaitTarget, false), cancel.op, Done(TurnCancelled(o))))
  {
  }

  lemma CancelledTurnSettles(s: State, op: OperationId, o: Observation)
    requires PromptWithTurn(s, op, AwaitTurn) && s.turns[op].phase.outcome == TurnCancelled(o) && o.complete
    ensures Step(s, WorkerSeesTurn(op))
         == Settle(s, op, Cancelled, RetainedEvidence(o), NoError, NonReusable, s.sessions[s.requests[op].session].instructions)
  {
    hide Settle, Quarantine, AbandonPrompt, ReachDeadline, RecordSubmission;
  }

  lemma TargetSettlesStep(limits: Limits, create: CreateRequest, prompt: PromptRequest, cancel: CancelCall, o: Observation)
    requires Distinct(create, prompt, cancel) && o.complete
    ensures
      var running := CancelRecord(prompt, cancel).(state := OperationState.Running);
      Step(Staged(limits, create, prompt, cancel,
                  BusyScene(prompt, create, running, Worker(AwaitTarget, false), cancel.op, Done(TurnCancelled(o)))),
           WorkerSeesTurn(prompt.op))
      == Settled1(limits, create, prompt, cancel, o)
  {
    var running := CancelRecord(prompt, cancel).(state := OperationState.Running);
    var s := Staged(limits, create, prompt, cancel,
                    BusyScene(prompt, create, running, Worker(AwaitTarget, false), cancel.op, Done(TurnCancelled(o))));
    assert s.workers - {prompt.op} == map[cancel.op := Worker(AwaitTarget, false)];
    assert {prompt.op} - {prompt.op} == {};
    CancelledTurnSettles(s, prompt.op, o);
    hide Next, Enabled;
  }

  function Settled1(limits: Limits, create: CreateRequest, prompt: PromptRequest, cancel: CancelCall, o: Observation): State {
    Staged(limits, create, prompt, cancel, SettledScene(prompt, create, cancel, o))
    .(released := {prompt.op}, reservations := 0)
  }

  function Expired1(limits: Limits, create: CreateRequest, prompt: PromptRequest, cancel: CancelCall, o: Observation): State {
    Settled1(limits, create, prompt, cancel, o).(
      sessions := map[create.session := Session(create.stableDigest, SessionState.Lost, None, Pending)],
      workers := map[cancel.op := Worker(Settling, false)],
      continuity := Draining(ByWorker(cancel.op), {}, map[
        prompt.op := Settlement(InDoubt, NoResult, CancellationSettlementUnknown),
        cancel.op := Settlement(Completed, CancelReceipt(InDoubt, true), NoError)], {}),
      staleExpiries := {cancel.op})
  }

  /** The grace passes in the same loop turn in which the target settles ... */
  lemma StaleExpiryStep(limits: Limits, create: CreateRequest, prompt: PromptRequest, cancel: CancelCall, o: Observation)
    requires Distinct(create, prompt, cancel)
    ensures Step(Settled1(limits, create, prompt, cancel, o), CancelGracePasses(cancel.op))
         == Expired1(limits, create, prompt, cancel, o)
  {
    hide Settled1, Distinct, TargetExpired, ControlAt;
    SettledFacts(limits, create, prompt, cancel, o);
    ExpireOne(Settled1(limits, create, prompt, cancel, o), prompt, cancel, o);
  }

  lemma SettledFacts(limits: Limits, create: CreateRequest, prompt: PromptRequest, cancel: CancelCall, o: Observation)
    requires Distinct(create, prompt, cancel)
    ensures
      var s := Settled1(limits, create, prompt, cancel, o);
      && ControlAt(s, cancel.op, CancelRequest, AwaitTarget) && s.records[cancel.op].target.value == prompt.op
      && s.records[cancel.op].state.Running?
      && (forall op | op in s.records && op != cancel.op :: s.records[op].state.Terminal())
      && prompt.op in s.records && s.records[prompt.op].state.Terminal() && cancel.op != prompt.op
      && s.workers == map[cancel.op := Worker(AwaitTarget, false)]
      && s.tracked == {} && s.records[cancel.op].session == create.session
      && s.sessions == map[create.session := Session(create.stableDigest, NonReusable, None, Pending)]
      && s.unsettledAtLoss == {} && s.staleExpiries == {}
  {
  }

  lemma ExpireOne(s: State, prompt: PromptRequest, cancel: CancelCall, o: Observation)
    requires ControlAt(s, cancel.op, CancelRequest, AwaitTarget) && s.records[cancel.op].target.value == prompt.op
    requires s.records[cancel.op].state.Running? && (forall op | op in s.records && op != cancel.op :: s.records[op].state.Terminal())
    requires s.records[prompt.op].state.Terminal() && cancel.op != prompt.op
    requires s.workers == map[cancel.op := Worker(AwaitTarget, false)]
    requires s.tracked == {} && s.sessions.Keys == {s.records[cancel.op].session}
    ensures
      var sid := s.records[cancel.op].session;
      TargetExpired(s, cancel.op) == s.(
        sessions := map[sid := s.sessions[sid].(state := SessionState.Lost)],
        workers := map[cancel.op := Worker(Settling, false)],
        continuity := Draining(ByWorker(cancel.op), {}, map[
          prompt.op := Settlement(InDoubt, NoResult, CancellationSettlementUnknown),
          cancel.op := Settlement(Completed, CancelReceipt(InDoubt, true), NoError)], {}),
        unsettledAtLoss := {},
        staleExpiries := s.staleExpiries + {cancel.op})
  {
    var q := TargetExpired(s, cancel.op);
    assert q.turns == s.turns;
  }

  lemma DrainStep(limits: Limits, create: CreateRequest, prompt: PromptRequest, cancel: CancelCall, o: Observation)
    ensures
      var s := Expired1(limits, create, prompt, cancel, o);
      Step(s, TasksDrained) == s.(continuity := ToStopping(s.continuity))
  {
    assert Drained(Expired1(limits, create, prompt, cancel, o));
  }

  /** Publication leaves a settled target as it is and gives the cancellation its deferred receipt. */
  lemma DeferredReceipt(s: State, op: OperationId, target: OperationId, lost: Settlement, receipt: Result)
    requires op != target && op in s.records && target in s.records
    requires s.records[target].state.Terminal() && !s.records[op].state.Terminal()
    requires lost.state.Terminal() && !receipt.NoResult?
    requires s.continuity == Stopping(ByWorker(op), {}, map[target := lost, op := Settlement(Completed, receipt, NoError)], {})
    ensures Publishable(s)
    ensures
      var f := Publish(s, true, false);
      && target in f.records && f.records[target] == s.records[target]
      && op in f.records && f.records[op].state.Completed? && f.records[op].result == receipt
  {
    assert PublishedRecord(s, target, false) == s.records[target];
    assert PublishedRecord(s, op, false).state.Completed? && PublishedRecord(s, op, false).result == receipt;
    hide PublishedRecord, Unwind;
    PublishedAre(s, true, false);
  }

  lemma PublishedAre(s: State, stopSettled: bool, failed: bool)
    requires Publishable(s)
    ensures Publish(s, stopSettled, failed).records == map op | op in s.records :: PublishedRecord(s, op, failed)
  {
    hide PublishedRecord;
    var p := s.(records := map op | op in s.records :: PublishedRecord(s, op, failed), continuity := Closed(stopSettled, failed));
    if s.continuity.owner.ByWorker? && UnwindReady(p, s.continuity.owner.op) {
      UnwindKeepsRecords(p, s.continuity.owner.op);
    }
    hide Unwind;
  }

  lemma UnwindKeepsRecords(s: State, op: OperationId)
    requires UnwindReady(s, op)
    ensures Unwind(s, op).records == s.records
  {
  }

  lemma ExpiredFacts(limits: Limits, create: CreateRequest, prompt: PromptRequest, cancel: CancelCall, o: Observation)
    requires Distinct(create, prompt, cancel)
    ensures
      var s := Expired1(limits, create, prompt, cancel, o);
      && prompt.op != cancel.op && prompt.op in s.records && s.records[prompt.op].state == Cancelled
      && cancel.op in s.records && s.records[cancel.op].state.Running?
      && s.continuity == Draining(ByWorker(cancel.op), {}, map[
           prompt.op := Settlement(InDoubt, NoResult, CancellationSettlementUnknown),
           cancel.op := Settlement(Completed, CancelReceipt(InDoubt, true), NoError)], {})
  {
  }

  /** ... and the receipt says IN_DOUBT for a target that is CANCELLED for good. */
  lemma StopStep(limits: Limits, create: CreateRequest, prompt: PromptRequest, cancel: CancelCall, o: Observation)
    requires Distinct(create, prompt, cancel)
    ensures
      var s := Expired1(limits, create, prompt, cancel, o);
      var f := Step(s.(continuity := ToStopping(s.continuity)), StopReturns(false));
      && prompt.op in f.records && f.records[prompt.op].state == Cancelled
      && cancel.op in f.records && f.records[cancel.op].state.Completed?
      && f.records[cancel.op].result == CancelReceipt(InDoubt, true)
  {
    hide Expired1, Distinct, Publish;
    ExpiredFacts(limits, create, prompt, cancel, o);
    var s := Expired1(limits, create, prompt, cancel, o);
    DeferredReceipt(s.(continuity := ToStopping(s.continuity)), cancel.op, prompt.op,
                    Settlement(InDoubt, NoResult, CancellationSettlementUnknown), CancelReceipt(InDoubt, true));
  }

  /** The first six events: a running prompt, and a cancellation being sent. */
  function ReceiptOpening(create: CreateRequest, prompt: PromptRequest, cancel: CancelCall): seq<Event> {
    [Create(create, true, true), SubmitPrompt(prompt, true), Enter(prompt.op), TurnStarts(prompt.op),
     SubmitCancel(cancel, true), CancelStarts(cancel.op)]
  }

  /** The last six: the target settles, and the grace passes before its settlement is seen. */
  function ReceiptEnding(prompt: PromptRequest, cancel: CancelCall, o: Observation): seq<Event> {
    [CancelReturns(cancel.op, true), TurnEnds(prompt.op, TurnCancelled(o)), WorkerSeesTurn(prompt.op),
     CancelGracePasses(cancel.op), TasksDrained, StopReturns(false)]
  }

  lemma OpeningRun(limits: Limits, create: CreateRequest, prompt: PromptRequest, cancel: CancelCall)
    requires Admissible(limits, create, prompt)
    ensures Run(Init(limits), ReceiptOpening(create, prompt, cancel))
         == Step(Step(Started1(limits, create, prompt, TurnPhase.Running), SubmitCancel(cancel, true)), CancelStarts(cancel.op))
  {
    hide Step, Init, Submitted1, Started1, Admissible;
    SubmitFirst(limits, create, prompt);
    StartFirst(limits, create, prompt);
    TurnFirst(limits, create, prompt);
    var events := ReceiptOpening(create, prompt, cancel);
    RunTwo(Init(limits), events);
    RunTwo(Submitted1(limits, create, prompt), events[2..]);
    var s := Started1(limits, create, prompt, TurnPhase.Running);
    RunTwo(s, events[4..]);
    RunNil(Step(Step(s, events[4]), events[5]));
  }

  lemma EndingRun(s: State, prompt: PromptRequest, cancel: CancelCall, o: Observation)
    ensures Run(s, ReceiptEnding(prompt, cancel, o))
         == Step(Step(Step(Step(Step(Step(s, CancelReturns(cancel.op, true)), TurnEnds(prompt.op, TurnCancelled(o))),
                                WorkerSeesTurn(prompt.op)), CancelGracePasses(cancel.op)), TasksDrained), StopReturns(false))
  {
    hide Step;
    var events := ReceiptEnding(prompt, cancel, o);
    RunTwo(s, events);
    var s2 := Step(Step(s, events[0]), events[1]);
    RunTwo(s2, events[2..]);
    var s4 := Step(Step(s2, events[2]), events[3]);
    RunTwo(s4, events[4..]);
    RunNil(Step(Step(s4, events[4]), events[5]));
  }

  lemma RunNil(s: State)
    ensures Run(s, []) == s
  {
  }

  /** The whole run. */
  lemma ReceiptNotTrue(limits: Limits, create: CreateRequest, prompt: PromptRequest, cancel: CancelCall, o: Observation)
    requires Admissible(limits, create, prompt) && Distinct(create, prompt, cancel) && o.complete
    ensures
      var f := Run(Init(limits), ReceiptOpening(create, prompt, cancel) + ReceiptEnding(prompt, cancel, o));
      && prompt.op in f.records && f.records[prompt.op].state == Cancelled
      && cancel.op in f.records && f.records[cancel.op].state.Completed?
      && f.records[cancel.op].result == CancelReceipt(InDoubt, true)
  {
    hide *;
    OpeningRun(limits, create, prompt, cancel);
    EndingRun(Run(Init(limits), ReceiptOpening(create, prompt, cancel)), prompt, cancel, o);
    RunAppends(Init(limits), ReceiptOpening(create, prompt, cancel), ReceiptEnding(prompt, cancel, o));
    SubmitCancelStep(limits, create, prompt, cancel);
    SendCancelSteps(limits, create, prompt, cancel);
    TurnCancelledStep(limits, create, prompt, cancel, o);
    TargetSettlesStep(limits, create, prompt, cancel, o);
    StaleExpiryStep(limits, create, prompt, cancel, o);
    DrainStep(limits, create, prompt, cancel, o);
    StopStep(limits, create, prompt, cancel, o);
  }

  // ---------------------------------------------------------------- evidence that is dropped

  /** The deadline has passed while the turn runs, and the stop is being sent. */
  function Late1(limits: Limits, create: CreateRequest, prompt: PromptRequest, phase: TurnPhase): State {
    Started1(limits, create, prompt, TurnPhase.Running).(
      records := map[create.op := CreateRecord(create), prompt.op := PromptRecord(prompt).(state := Cancelling)],
      workers := map[prompt.op := Worker(SendDeadlineCancel, false)],
      turns := map[prompt.op := Turn(phase, false)])
  }

  function Unsent1(limits: Limits, create: CreateRequest, prompt: PromptRequest, phase: TurnPhase,
                   continuity: Continuity): State
  {
    Late1(limits, create, prompt, phase).(
      sessions := map[create.session := Session(create.stableDigest, SessionState.Lost, Some(prompt.op), Pending)],
      workers := map[prompt.op := Worker(Settling, false)], tracked := {}, lock := None, continuity := continuity,
      unsettledAtLoss := {prompt.op})
  }

  function Undecided(op: OperationId): map<OperationId, Settlement> {
    map[op := Settlement(InDoubt, NoResult, PromptInDoubt)]
  }

  lemma DeadlineFirst(limits: Limits, create: CreateRequest, prompt: PromptRequest)
    requires Admissible(limits, create, prompt)
    ensures Step(Started1(limits, create, prompt, TurnPhase.Running), DeadlinePasses(prompt.op))
         == Late1(limits, create, prompt, TurnPhase.Running)
  {
  }

  lemma EndsLate(limits: Limits, create: CreateRequest, prompt: PromptRequest, o: Observation)
    ensures Step(Late1(limits, create, prompt, TurnPhase.Running), TurnEnds(prompt.op, TurnCompleted(o, true)))
         == Late1(limits, create, prompt, Done(TurnCompleted(o, true)))
  {
  }

  lemma SendFails(limits: Limits, create: CreateRequest, prompt: PromptRequest, o: Observation)
    requires Admissible(limits, create, prompt)
    ensures Step(Late1(limits, create, prompt, Done(TurnCompleted(o, true))), DeadlineCancelReturns(prompt.op, false))
         == Unsent1(limits, create, prompt, Done(TurnCompleted(o, true)),
                    Draining(ByWorker(prompt.op), {}, Undecided(prompt.op), {}))
  {
    AbandonsLate(limits, create, prompt, o);
    hide AbandonPrompt, Unsent1;
  }

  lemma AbandonsLate(limits: Limits, create: CreateRequest, prompt: PromptRequest, o: Observation)
    requires Admissible(limits, create, prompt)
    ensures AbandonPrompt(Late1(limits, create, prompt, Done(TurnCompleted(o, true))), prompt.op, NoResult, PromptInDoubt)
         == Unsent1(limits, create, prompt, Done(TurnCompleted(o, true)),
                    Draining(ByWorker(prompt.op), {}, Undecided(prompt.op), {}))
  {
    PopsLate(limits, create, prompt, o);
    QuarantinesLate(limits, create, prompt, o);
    hide Late1, Unsent1, PopDone, Quarantine;
  }

  function Popped1(limits: Limits, create: CreateRequest, prompt: PromptRequest, o: Observation): State {
    Late1(limits, create, prompt, Done(TurnCompleted(o, true))).(tracked := {}, lock := None)
  }

  lemma PopsLate(limits: Limits, create: CreateRequest, prompt: PromptRequest, o: Observation)
    ensures PopDone(Late1(limits, create, prompt, Done(TurnCompleted(o, true))), prompt.op).(lock := None)
         == Popped1(limits, create, prompt, o)
  {
  }

  lemma QuarantinesLate(limits: Limits, create: CreateRequest, prompt: PromptRequest, o: Observation)
    requires Admissible(limits, create, prompt)
    ensures Quarantine(Popped1(limits, create, prompt, o), ByWorker(prompt.op), Undecided(prompt.op))
         == Unsent1(limits, create, prompt, Done(TurnCompleted(o, true)),
                    Draining(ByWorker(prompt.op), {}, Undecided(prompt.op), {}))
  {
    var s := Popped1(limits, create, prompt, o);
    assert Unfinished(s.records) == {prompt.op};
    assert LostSessions(s.sessions)
        == map[create.session := Session(create.stableDigest, SessionState.Lost, Some(prompt.op), Pending)];
    assert CancelledWorkers(s.workers, ByWorker(prompt.op)) == map[prompt.op := Worker(Settling, false)];
    assert CancelledTurns(s.turns, {}) == s.turns;
    hide Unfinished, LostSessions, CancelledWorkers, CancelledTurns;
  }

  lemma DrainsLate(limits: Limits, create: CreateRequest, prompt: PromptRequest, o: Observation)
    ensures Step(Unsent1(limits, create, prompt, Done(TurnCompleted(o, true)),
                         Draining(ByWorker(prompt.op), {}, Undecided(prompt.op), {})), TasksDrained)
         == Unsent1(limits, create, prompt, Done(TurnCompleted(o, true)),
                    Stopping(ByWorker(prompt.op), {}, Undecided(prompt.op), {}))
  {
  }

  lemma StopsLate(limits: Limits, create: CreateRequest, prompt: PromptRequest, o: Observation)
    requires prompt.op != create.op
    ensures
      var f := Step(Unsent1(limits, create, prompt, Done(TurnCompleted(o, true)),
                            Stopping(ByWorker(prompt.op), {}, Undecided(prompt.op), {})), StopReturns(false));
      && f.turns == map[prompt.op := Turn(Done(TurnCompleted(o, true)), false)]
      && prompt.op in f.records && f.records[prompt.op].state.InDoubt?
      && f.records[prompt.op].result == RetainedEvidence(NOTHING_OBSERVED)
  {
    var s := Unsent1(limits, create, prompt, Done(TurnCompleted(o, true)),
                     Stopping(ByWorker(prompt.op), {}, Undecided(prompt.op), {}));
    PublishedLate(limits, create, prompt, o);
    PublishTurns(s, true, false);
    PublishedAre(s, true, false);
    hide Publish, PublishedRecord, Unsent1, Publishable;
  }

  lemma PublishedLate(limits: Limits, create: CreateRequest, prompt: PromptRequest, o: Observation)
    requires prompt.op != create.op
    ensures
      var s := Unsent1(limits, create, prompt, Done(TurnCompleted(o, true)),
                       Stopping(ByWorker(prompt.op), {}, Undecided(prompt.op), {}));
      && Publishable(s) && s.turns == map[prompt.op := Turn(Done(TurnCompleted(o, true)), false)]
      && prompt.op in s.records && PublishedRecord(s, prompt.op, false).state.InDoubt?
      && PublishedRecord(s, prompt.op, false).result == RetainedEvidence(NOTHING_OBSERVED)
  {
  }

  function LateEvents(prompt: PromptRequest, o: Observation): seq<Event> {
    [DeadlinePasses(prompt.op), TurnEnds(prompt.op, TurnCompleted(o, true)), DeadlineCancelReturns(prompt.op, false),
     TasksDrained, StopReturns(false)]
  }

  lemma LateRun(limits: Limits, create: CreateRequest, prompt: PromptRequest, o: Observation)
    requires Admissible(limits, create, prompt)
    ensures
      var f := Run(Started1(limits, create, prompt, TurnPhase.Running), LateEvents(prompt, o));
      && f.turns == map[prompt.op := Turn(Done(TurnCompleted(o, true)), false)]
      && prompt.op in f.records && f.records[prompt.op].state.InDoubt?
      && f.records[prompt.op].result == RetainedEvidence(NOTHING_OBSERVED)
  {
    DeadlineFirst(limits, create, prompt);
    EndsLate(limits, create, prompt, o);
    SendFails(limits, create, prompt, o);
    DrainsLate(limits, create, prompt, o);
    StopsLate(limits, create, prompt, o);
    hide Step, Run, Started1, Late1, Unsent1, Admissible;
    var ended := Done(TurnCompleted(o, true));
    var events := LateEvents(prompt, o);
    RunTwo(Started1(limits, create, prompt, TurnPhase.Running), events);
    RunTwo(Late1(limits, create, prompt, ended), events[2..]);
    RunTwo(Unsent1(limits, create, prompt, ended, Stopping(ByWorker(prompt.op), {}, Undecided(prompt.op), {})), events[4..]);
  }

  /** A turn completes after the deadline of its prompt while the stop is being sent, and sending fails: the prompt ends
      in doubt and its evidence says that nothing was observed. */
  lemma EvidenceDropped(limits: Limits, create: CreateRequest, prompt: PromptRequest, o: Observation)
    requires Admissible(limits, create, prompt)
    ensures
      var f := Run(Init(limits), [Create(create, true, true), SubmitPrompt(prompt, true), Enter(prompt.op),
                                  TurnStarts(prompt.op)] + LateEvents(prompt, o));
      && f.turns == map[prompt.op := Turn(Done(TurnCompleted(o, true)), false)]
      && prompt.op in f.records && f.records[prompt.op].state.InDoubt?
      && f.records[prompt.op].result == RetainedEvidence(NOTHING_OBSERVED)
  {
    SubmitFirst(limits, create, prompt);
    StartFirst(limits, create, prompt);
    TurnFirst(limits, create, prompt);
    LateRun(limits, create, prompt, o);
    hide *;
    var events := [Create(create, true, true), SubmitPrompt(prompt, true), Enter(prompt.op), TurnStarts(prompt.op)]
                  + LateEvents(prompt, o);
    RunTwo(Init(limits), events);
    RunTwo(Submitted1(limits, create, prompt), events[2..]);
    assert events[2..][2..] == LateEvents(prompt, o);
  }
}
