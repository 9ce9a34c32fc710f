/** The operation ledger and the session values of `direct_state.py`.

    Identifiers and digests are only ever compared for equality, so they stay abstract here. */
module DirectState {
  import opened Basics

  type OperationId(==,!new)
  type SessionId(==,!new)
  type InvocationId(==,!new)
  type Digest(==,!new)

  datatype OperationKind = CreateSession | Prompt | CancelRequest | RetireSession

  datatype OperationState =
    | Accepted | Queued | Running | Cancelling
    | Completed | Failed | Cancelled | TimedOut | InDoubt
  {
    predicate Terminal() {
      Completed? || Failed? || Cancelled? || TimedOut? || InDoubt?
    }
  }

  datatype SessionState = Creating | Ready | Busy | NonReusable | Lost | Retiring | Retired

  /** What one native turn reported; `tag` stands for its events, replies and receipts. */
  datatype Observation = Observation(tag: nat, complete: bool)

  const NOTHING_OBSERVED := Observation(0, false)

  datatype Result =
    | NoResult
    | SessionAllocated
    | CancelledPreDispatch
    | CancelReceipt(target: OperationState, sent: bool)
    | PromptResult(observation: Observation)
    | RetainedEvidence(observation: Observation)
    | SessionRetired(destroyed: bool)

  datatype ErrorCode =
    | NoError | AllocationFailed | EvidenceLimit | NativeTurnFailed | ExecutionDeadline
    | PromptInDoubt | CancellationStopMismatch | DeadlineSettlementUnknown | DeadlineStopMismatch
    | CancellationSettlementUnknown | CancelTransportFailed | CancelFailed
    | RetirementInDoubt | ContinuityLost | CleanupSettlementUnknown

  datatype Record = Record(
    digest: Digest,
    kind: OperationKind,
    session: SessionId,
    invocation: Option<InvocationId>,
    target: Option<OperationId>,
    state: OperationState,
    result: Result,
    error: ErrorCode)
  {
    /** Two requests are the same operation when all of these agree. */
    predicate SameIdentity(other: Record) {
      && digest == other.digest && kind == other.kind && session == other.session
      && invocation == other.invocation && target == other.target
    }

    /** A terminal record ignores every later outcome. */
    function SetTerminal(outcome: OperationState, result: Result, error: ErrorCode): (r: Record)
      requires outcome.Terminal()
      ensures r.SameIdentity(this) && r.state.Terminal()
      ensures state.Terminal() ==> r == this
      ensures !state.Terminal() ==> r.state == outcome && r.result == result && r.error == error
    {
      if state.Terminal() then this else this.(state := outcome, result := result, error := error)
    }
  }

  function NewRecord(digest: Digest, kind: OperationKind, session: SessionId,
                     invocation: Option<InvocationId>, target: Option<OperationId>): Record
  {
    Record(digest, kind, session, invocation, target, Accepted, NoResult, NoError)
  }

  datatype LedgerReply = Replayed | Reused | Exhausted | Admitted

  type Ledger = map<OperationId, Record>

  /** Classifies an admission: an identity already in use is never admitted again. */
  function Classify(records: Ledger, capacity: nat, op: OperationId, candidate: Record): LedgerReply
  {
    if op in records then
      if records[op].SameIdentity(candidate) then Replayed else Reused
    else if |records| >= capacity then Exhausted
    else Admitted
  }

  // ---------------------------------------------------------------- instruction lifetime

  type Contracts = seq<(InvocationId, Digest)>

  datatype InstructionState = Pending | Submitted(active: InvocationId, contracts: Contracts)

  ghost predicate UniqueIdentities(contracts: Contracts) {
    forall i, j :: 0 <= i < j < |contracts| ==> contracts[i].0 != contracts[j].0
  }

  /** What `InstructionsSubmitted.__post_init__` checks. */
  ghost predicate WellFormed(instructions: InstructionState) {
    instructions.Submitted? ==>
      && UniqueIdentities(instructions.contracts)
      && exists i :: 0 <= i < |instructions.contracts| && instructions.contracts[i].0 == instructions.active
  }

  /** The first contract recorded for an invocation. */
  function ContractFor(contracts: Contracts, invocation: InvocationId): (d: Option<Digest>)
    ensures d.None? <==> forall i :: 0 <= i < |contracts| ==> contracts[i].0 != invocation
    ensures d.Some? ==> (invocation, d.value) in contracts
  {
    if contracts == [] then None
    else if contracts[0].0 == invocation then Some(contracts[0].1)
    else
      var rest := ContractFor(contracts[1..], invocation);
      assert forall i :: 1 <= i < |contracts| ==> contracts[i] == contracts[1..][i - 1];
      rest
  }

  /** With unique identities the first match is the only one, so a settled contract digest
      is a function of the invocation. */
  lemma {:induction false} ContractForIsTheContract(contracts: Contracts, invocation: InvocationId, digest: Digest)
    requires UniqueIdentities(contracts)
    ensures ContractFor(contracts, invocation) == Some(digest) <==> (invocation, digest) in contracts
  {
    if contracts != [] {
      var rest := contracts[1..];
      assert contracts == [contracts[0]] + rest;
      assert forall i :: 0 <= i < |rest| ==> rest[i] == contracts[i + 1];
      ContractForIsTheContract(rest, invocation, digest);
    }
  }
}
