/** The transport object of native_transport.py: every method is one step of `TransportProtocol`. */
module NativeTransports {
  import opened Basics
  import opened TransportProtocol

  class NativeTransport {
    const maxCallbacks: nat
    var running: bool
    var reading: bool
    var failure: Option<Reason>
    var stopping: bool
    var expectedExit: bool
    var nextId: nat
    /** Every request ever reserved; its owner keeps it after it has left the pending table. */
    var requests: map<int, Request>
    var pending: set<int>
    var callbackIds: set<Id>
    var callbacks: set<Id>
    /** What the closure observers have been called with. */
    var notices: seq<Reason>

    ghost function View(): State
      reads this
    {
      State(maxCallbacks, running, reading, failure, stopping, expectedExit, nextId, requests, pending,
            callbackIds, callbacks, notices)
    }

    constructor (maxCallbacks: nat)
      ensures View() == Started(maxCallbacks)
    {
      this.maxCallbacks := maxCallbacks;
      running, reading, failure, stopping, expectedExit := true, true, None, false, false;
      nextId, requests, pending, callbackIds, callbacks, notices := 0, map[], {}, {}, {}, [];
    }

    method ReserveRequest() returns (id: Option<int>)
      modifies this
      ensures id == if IsOpen(old(View())) then Some(old(nextId) + 1) else None
      ensures View() == if IsOpen(old(View())) then Reserve(old(View())) else old(View())
    {
      if !running || failure.Some? || stopping {
        return None;
      }
      nextId := nextId + 1;
      requests := requests[nextId := Request(false, Open)];
      pending := pending + {nextId};
      id := Some(nextId);
    }

    method StartDispatch(id: int) returns (accepted: bool)
      modifies this
      ensures accepted == Dispatchable(old(View()), id)
      ensures View() == if accepted then BeginDispatch(old(View()), id) else old(View())
    {
      if id !in pending || id !in requests || requests[id].sent {
        return false;
      }
      requests := requests[id := requests[id].(sent := true)];
      accepted := true;
    }

    /** The loop of `abort` and `_stop_owned` over the pending table. */
    method ResolvePending(fate: Fate)
      requires !fate.Open?
      modifies `requests, `pending
      ensures requests == ResolveAll(old(requests), old(pending), fate) && pending == {}
    {
      var left: set<int> := pending;
      while left != {}
        invariant left <= pending == old(pending)
        invariant requests == ResolveAll(old(requests), pending - left, fate)
        decreases |left|
      {
        assert (forall id: int :: id !in left) ==> left == {};
        var id: int :| id in left;
        if id in requests && requests[id].fate.Open? {
          requests := requests[id := requests[id].(fate := fate)];
        }
        left := left - {id};
      }
      assert pending - left == pending;
      pending := {};
    }

    method AbortTransport(reason: Reason)
      modifies this
      ensures View() == Abort(old(View()), reason)
    {
      if failure.Some? || stopping {
        return;
      }
      failure := Some(reason);
      ResolvePending(Revoked(reason));
      notices := notices + [reason];
    }

    method AdmitEnvelope(m: Envelope, raises: bool) returns (accepted: bool)
      modifies this
      ensures var admission := Admit(old(View()), m, raises);
              accepted == admission.Accepted? && View() == admission.state
    {
      accepted := false;
      if !m.versionTwo || m.id.BadId? {
        return;
      }
      if !m.name.NoMethod? {
        if m.name.BadMethod? || m.extra || m.result.Some? || !m.error.NoError? {
          return;
        }
        if m.id.NoId? {
          accepted := !raises;
          return;
        }
        if m.id in callbackIds || |callbacks| >= maxCallbacks || |callbackIds| >= MAX_CALLBACK_IDS {
          return;
        }
        callbackIds := callbackIds + {m.id};
        if !raises {
          callbacks := callbacks + {m.id};
          accepted := true;
        }
      } else {
        if !m.id.IntId? || m.extra || m.params.Some? || m.result.Some? == !m.error.NoError? {
          return;
        }
        accepted := SettleResponse(m, raises);
      }
    }

    method SettleResponse(m: Envelope, raises: bool) returns (accepted: bool)
      requires m.id.IntId? && m.result.Some? == m.error.NoError?
      modifies `requests, `pending
      ensures var admission := AdmitResponse(old(View()), m, raises);
              accepted == admission.Accepted? && View() == admission.state
    {
      var id := m.id.number;
      if id !in pending || id !in requests {
        return false;
      }
      var request := requests[id];
      pending := pending - {id};
      if !request.fate.Open? || !request.sent {
        return false;
      }
      if raises || (m.error.ErrorObject? && !m.error.wellFormed) {
        requests := requests[id := request.(fate := Rejected)];
        return false;
      }
      var response := if m.error.ErrorObject? then Response(m.error.content, true) else Response(m.result.value, false);
      requests := requests[id := request.(fate := Answered(response))];
      accepted := true;
    }

    /** One message of `_read_loop`. */
    method Receive(m: Envelope, raises: bool, reason: Reason)
      requires reading
      modifies this
      ensures View() == Next(old(View()), TransportProtocol.Receive(m, raises, reason))
    {
      var accepted := AdmitEnvelope(m, raises);
      if !accepted {
        EndReading(reason);
      }
    }

    method EndReading(reason: Reason)
      modifies this
      ensures View() == ReaderRaised(old(View()), reason)
    {
      reading := false;
      if !stopping && !expectedExit {
        AbortTransport(reason);
      }
    }

    method CallbackDone(callback: Id, end: CallbackEnd)
      requires callback in callbacks
      modifies this
      ensures View() == Next(old(View()), CallbackEnds(callback, end))
    {
      callbacks := callbacks - {callback};
      if end.CallbackRaised? {
        AbortTransport(end.reason);
      }
    }

    method BeginStopping()
      modifies this
      ensures View() == BeginStop(old(View()))
    {
      stopping := true;
      ResolvePending(StoppedByOwner);
    }

    method Perform(e: Event)
      requires Enabled(View(), e)
      modifies this
      ensures View() == Next(old(View()), e)
    {
      match e {
        case ReserveRequest =>
          var _ := ReserveRequest();
        case StartDispatch(id) =>
          var _ := StartDispatch(id);
        case Receive(message, raises, reason) =>
          Receive(message, raises, reason);
        case ReadFailed(exited, reason) =>
          running := running && !exited;
          EndReading(reason);
        case ReaderCancelled =>
          reading := false;
        case CallbackEnds(callback, end) =>
          CallbackDone(callback, end);
        case Fail(reason) =>
          AbortTransport(reason);
        case ExpectExit =>
          expectedExit := true;
        case Stop =>
          BeginStopping();
      }
    }

    /** Any run of the object is a run of the protocol, so all its results hold of it. */
    method Serve(events: seq<Event>)
      modifies this
      ensures View() == Run(old(View()), events)
    {
      for i := 0 to |events|
        invariant Run(View(), events[i..]) == Run(old(View()), events)
      {
        assert events[i..][0] == events[i] && events[i..][1..] == events[i + 1..];
        if Holds(events[i]) {
          Perform(events[i]);
        }
      }
    }

    /** Whether an event can happen now. */
    function Holds(e: Event): (r: bool)
      reads this
      ensures r == Enabled(View(), e)
    {
      match e
      case ReserveRequest => running && failure.None? && !stopping
      case StartDispatch(id) => id in pending && id in requests && !requests[id].sent
      case Receive(_, _, _) => reading
      case ReadFailed(_, _) => reading
      case ReaderCancelled => stopping
      case CallbackEnds(callback, _) => callback in callbacks
      case _ => true
    }
  }
}
