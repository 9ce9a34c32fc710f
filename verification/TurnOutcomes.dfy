/** Where the two layers meet: the terminal of a native turn (native_client.py) is the outcome from which
  * the direct service settles the turn's operation (direct_service.py). */
module TurnOutcomes {
  import N = NativeTurns
  import D = DirectState
  import P = DirectProtocol
  import I = DirectInvariants
  import T = DirectTheorems

  /** What the service makes of a terminal. `tag` stands for the content of the observation; `matches`: the
    * binding it carries is the one that was admitted. */
  function OutcomeOf(t: N.Terminal, tag: nat, matches: bool): P.TurnOutcome {
    var o := D.Observation(tag, t.observation.complete);
    match t
    case NativeCompleted(_) => P.TurnCompleted(o, matches)
    case NativeCancelled(_, _) => P.TurnCancelled(o)
    case NativeFailed(_, _) => P.TurnFailed(o)
    case NotSettled(_) => P.Unsettled(o)
  }

  /** What a settled state says of the turn behind it: completion, that it ended and was answered without an
    * error and nothing that arrived was dropped; and every other state, why it is not completion. */
  ghost predicate Tells(state: D.OperationState, error: D.ErrorCode, turn: N.NativeTurn)
    reads turn
  {
    match state
    case Completed =>
      && turn.Settled() && turn.Complete() && !turn.SomethingDidNotFit() && !turn.cancelRequested
      && turn.seen.answer.value.RpcResult?
      && turn.seen.ending.value.reason.None? && turn.seen.ending.value.error.None?
    case Failed =>
      && turn.Settled()
      && if error.EvidenceLimit? then turn.SomethingDidNotFit()
         else turn.Complete() && (turn.seen.answer.value.RpcError? || turn.seen.ending.value.error.Some?)
    case Cancelled => turn.Settled() && turn.Complete() && turn.seen.ending.value.reason.Some?
    case TimedOut => turn.Settled() && turn.seen.ending.value.reason.Some?
    case _ => true
  }

  /** A COMPLETED operation dropped no evidence. In every reachable state of the service, a prompt that was
    * settled from the terminal of a native turn says the truth about that turn. */
  lemma SettledPromptsTellTheirTurn(limits: P.Limits, events: seq<P.Event>, op: D.OperationId,
                                    turn: N.NativeTurn, failed: bool, t: N.Terminal, tag: nat, matches: bool)
    requires turn.Truth(failed, t)
    requires
      var s := P.Run(P.Init(limits), events);
      && op in s.requests && op in s.records && s.records[op].state.Terminal()
      && !s.records[op].result.CancelledPreDispatch?
      && (op in s.turns && s.turns[op].phase.Done? ==> s.turns[op].phase.outcome == OutcomeOf(t, tag, matches))
    ensures
      var r := P.Run(P.Init(limits), events).records[op];
      && Tells(r.state, r.error, turn)
      && (r.state.Completed? ==> matches && r.result == D.PromptResult(D.Observation(tag, true)))
  {
    T.OutcomesMatchTurns(limits, events, op);
    var r := P.Run(P.Init(limits), events).records[op];
    if !r.state.InDoubt? {
      TerminalTells(r.state, r.result, r.error, turn, failed, t, tag, matches);
    }
  }

  lemma TerminalTells(state: D.OperationState, result: D.Result, error: D.ErrorCode,
                      turn: N.NativeTurn, failed: bool, t: N.Terminal, tag: nat, matches: bool)
    requires turn.Truth(failed, t) && I.FitsTurn(state, result, error, OutcomeOf(t, tag, matches))
    ensures Tells(state, error, turn)
    ensures state.Completed? ==> matches && result == D.PromptResult(D.Observation(tag, true))
  {
  }
}
