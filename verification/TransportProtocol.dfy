/** JSON-RPC correlation in native_transport.py: request identities, callback admission and one-way
  * revocation, as a state machine whose steps are the code between two suspension points. The rules
  * for envelopes are those of JSON-RPC 2.0, sections 4, 5 and 5.1, as `_admit` checks them. */
module TransportProtocol {
  import opened Basics

  type Reason(==, !new)
  type Json(==, !new)

  /** Callback identities are never forgotten, and this many are enough. */
  const MAX_CALLBACK_IDS: nat := 65536

  // --- envelopes -------------------------------------------------------------------------------

  /** The `id` member: absent, an integer, a string, or anything else (null and booleans included). */
  datatype Id = NoId | IntId(number: int) | StrId(text: string) | BadId

  datatype MethodName = NoMethod | Method(name: string) | BadMethod

  /** The `error` member; section 5.1 wants an object with an integer code and a string message. */
  datatype ErrorMember = NoError | ErrorObject(wellFormed: bool, content: Json)

  datatype Envelope = Envelope(
    versionTwo: bool, id: Id, name: MethodName, params: Option<Json>,
    result: Option<Json>, error: ErrorMember, extra: bool)

  datatype Response = Response(value: Json, isError: bool)

  // --- state -----------------------------------------------------------------------------------

  /** How a request's future was resolved; `Rejected` is a response its observer or its error member
    * did not survive. */
  datatype Fate = Open | Answered(response: Response) | Rejected | Revoked(reason: Reason) | StoppedByOwner

  datatype Request = Request(sent: bool, fate: Fate)

  datatype State = State(
    maxCallbacks: nat,
    running: bool,
    reading: bool,
    failure: Option<Reason>,
    stopping: bool,
    expectedExit: bool,
    nextId: nat,
    requests: map<int, Request>,
    pending: set<int>,
    callbackIds: set<Id>,
    callbacks: set<Id>,
    notices: seq<Reason>)

  /** A transport whose child has just been started. */
  function Started(maxCallbacks: nat): State {
    State(maxCallbacks, true, true, None, false, false, 0, map[], {}, {}, {}, [])
  }

  predicate IsOpen(s: State) {
    s.running && s.failure.None? && !s.stopping
  }

  // --- steps -----------------------------------------------------------------------------------

  function ResolveAll(requests: map<int, Request>, ids: set<int>, fate: Fate): map<int, Request> {
    map id | id in requests ::
      if id in ids && requests[id].fate.Open? then requests[id].(fate := fate) else requests[id]
  }

  /** `reserve`, on an open transport. */
  function Reserve(s: State): State {
    s.(nextId := s.nextId + 1,
       requests := s.requests[s.nextId + 1 := Request(false, Open)],
       pending := s.pending + {s.nextId + 1})
  }

  predicate Dispatchable(s: State, id: int) {
    id in s.pending && id in s.requests && !s.requests[id].sent
  }

  /** The part of `dispatch` before the write. */
  function BeginDispatch(s: State, id: int): State
    requires Dispatchable(s, id)
  {
    s.(requests := s.requests[id := s.requests[id].(sent := true)])
  }

  function Abort(s: State, reason: Reason): State {
    if s.failure.Some? || s.stopping then s
    else s.(failure := Some(reason),
            requests := ResolveAll(s.requests, s.pending, Revoked(reason)),
            pending := {},
            notices := s.notices + [reason])
  }

  /** The first part of `_stop_owned`. */
  function BeginStop(s: State): State {
    s.(stopping := true, requests := ResolveAll(s.requests, s.pending, StoppedByOwner), pending := {})
  }

  /** `_admit`: the new state, and whether the envelope was accepted or an exception left it. */
  datatype Admission = Accepted(state: State) | Raised(state: State)

  /** `raises` says whether the handler or observer the envelope is handed to raises. */
  function Admit(s: State, m: Envelope, raises: bool): Admission {
    if !m.versionTwo || m.id.BadId? then Raised(s)
    else if !m.name.NoMethod? then
      if m.name.BadMethod? || m.extra || m.result.Some? || !m.error.NoError? then Raised(s)
      else if m.id.NoId? then if raises then Raised(s) else Accepted(s)
      else AdmitCallback(s, m.id, raises)
    else if !m.id.IntId? || m.extra || m.params.Some? || m.result.Some? == !m.error.NoError? then Raised(s)
    else AdmitResponse(s, m, raises)
  }

  function AdmitCallback(s: State, id: Id, raises: bool): Admission {
    if id in s.callbackIds || |s.callbacks| >= s.maxCallbacks || |s.callbackIds| >= MAX_CALLBACK_IDS then Raised(s)
    else
      var known := s.(callbackIds := s.callbackIds + {id});
      if raises then Raised(known) else Accepted(known.(callbacks := s.callbacks + {id}))
  }

  function AdmitResponse(s: State, m: Envelope, raises: bool): Admission
    requires m.id.IntId? && m.result.Some? == m.error.NoError?
  {
    var id := m.id.number;
    var popped := s.(pending := s.pending - {id});
    if id !in s.pending || id !in s.requests then Raised(s)
    else if !s.requests[id].fate.Open? || !s.requests[id].sent then Raised(popped)
    else if raises || (m.error.ErrorObject? && !m.error.wellFormed) then
      Raised(popped.(requests := s.requests[id := s.requests[id].(fate := Rejected)]))
    else
      var response := if m.result.Some? then Response(m.result.value, false) else Response(m.error.content, true);
      Accepted(popped.(requests := s.requests[id := s.requests[id].(fate := Answered(response))]))
  }

  /** The end of `_read_loop` by an exception. */
  function ReaderRaised(s: State, reason: Reason): State {
    var ended := s.(reading := false);
    if s.stopping || s.expectedExit then ended else Abort(ended, reason)
  }

  datatype CallbackEnd = Returned | CallbackCancelled | CallbackRaised(reason: Reason)

  datatype Event =
    | ReserveRequest
    | StartDispatch(id: int)
    | Receive(message: Envelope, raises: bool, reason: Reason)
    | ReadFailed(exited: bool, reason: Reason)
    | ReaderCancelled
    | CallbackEnds(callback: Id, end: CallbackEnd)
    | Fail(reason: Reason)
    | ExpectExit
    | Stop

  predicate Enabled(s: State, e: Event) {
    match e
    case ReserveRequest => IsOpen(s)
    case StartDispatch(id) => Dispatchable(s, id)
    case Receive(_, _, _) => s.reading
    case ReadFailed(_, _) => s.reading
    case ReaderCancelled => s.stopping
    case CallbackEnds(callback, _) => callback in s.callbacks
    case Fail(_) => true
    case ExpectExit => true
    case Stop => true
  }

  function Next(s: State, e: Event): State
    requires Enabled(s, e)
  {
    match e
    case ReserveRequest => Reserve(s)
    case StartDispatch(id) => BeginDispatch(s, id)
    case Receive(message, raises, reason) =>
      (match Admit(s, message, raises)
       case Accepted(t) => t
       case Raised(t) => ReaderRaised(t, reason))
    case ReadFailed(exited, reason) => ReaderRaised(s.(running := s.running && !exited), reason)
    case ReaderCancelled => s.(reading := false)
    case CallbackEnds(callback, end) =>
      var joined := s.(callbacks := s.callbacks - {callback});
      if end.CallbackRaised? then Abort(joined, end.reason) else joined
    case Fail(reason) => Abort(s, reason)
    case ExpectExit => s.(expectedExit := true)
    case Stop => BeginStop(s)
  }

  /** A run takes the events that are enabled when their turn comes. */
  function Run(s: State, events: seq<Event>): State
    decreases |events|
  {
    if events == [] then s
    else Run(if Enabled(s, events[0]) then Next(s, events[0]) else s, events[1..])
  }

  // --- what every state satisfies --------------------------------------------------------------

  /** Identities are exactly 1 to `nextId`, each reserved once. */
  ghost predicate Numbered(requests: map<int, Request>, nextId: nat) {
    forall id :: id in requests <==> 1 <= id <= nextId
  }

  /** A pending request is unresolved, and a sent one is unresolved only while pending. */
  ghost predicate Correlated(requests: map<int, Request>, pending: set<int>) {
    && (forall id :: id in pending ==> id in requests && requests[id].fate.Open?)
    && (forall id :: id in requests && requests[id].sent && requests[id].fate.Open? ==> id in pending)
  }

  /** Revocation and stopping leave nothing pending, and the observers hear of the failure once. */
  ghost predicate Revocable(s: State) {
    && (s.failure.Some? || s.stopping ==> s.pending == {})
    && s.notices == if s.failure.Some? then [s.failure.value] else []
  }

  ghost predicate Bounded(callbacks: set<Id>, callbackIds: set<Id>, limit: nat) {
    callbacks <= callbackIds && |callbacks| <= limit && |callbackIds| <= MAX_CALLBACK_IDS
  }

  ghost predicate Inv(s: State) {
    && Numbered(s.requests, s.nextId)
    && Correlated(s.requests, s.pending)
    && Revocable(s)
    && Bounded(s.callbacks, s.callbackIds, s.maxCallbacks)
  }

  /** A request is never forgotten, unsent or resolved a second time. */
  ghost predicate RequestsKept(before: map<int, Request>, after: map<int, Request>) {
    forall id :: id in before ==>
      && id in after
      && (before[id].sent ==> after[id].sent)
      && (!before[id].fate.Open? ==> after[id] == before[id])
  }

  /** What no later step takes back. */
  ghost predicate Kept(s: State, t: State) {
    && t.maxCallbacks == s.maxCallbacks
    && s.nextId <= t.nextId
    && RequestsKept(s.requests, t.requests)
    && s.callbackIds <= t.callbackIds
    && (s.failure.Some? ==> t.failure == s.failure && t.notices == s.notices)
    && (s.stopping ==> t.stopping && t.failure == s.failure)
    && (!s.running ==> !t.running)
    && (!s.reading ==> !t.reading)
  }

  lemma ResolveAllKeeps(requests: map<int, Request>, pending: set<int>, nextId: nat, fate: Fate)
    requires Numbered(requests, nextId) && Correlated(requests, pending) && !fate.Open?
    ensures var after := ResolveAll(requests, pending, fate);
            Numbered(after, nextId) && Correlated(after, {}) && RequestsKept(requests, after)
  {
  }

  lemma PopKeeps(requests: map<int, Request>, pending: set<int>, nextId: nat, id: int, r: Request)
    requires Numbered(requests, nextId) && Correlated(requests, pending)
    requires id in requests && r.sent == requests[id].sent && requests[id].fate.Open? && (r.sent ==> !r.fate.Open?)
    ensures var after := requests[id := r];
            Numbered(after, nextId) && Correlated(after, pending - {id}) && RequestsKept(requests, after)
  {
  }

  lemma RequestsKeptIsReflexive(requests: map<int, Request>)
    ensures RequestsKept(requests, requests)
  {
  }

  lemma KeptIsTransitive(s: State, t: State, u: State)
    requires Kept(s, t) && Kept(t, u)
    ensures Kept(s, u)
  {
  }

  lemma AbortKeeps(s: State, reason: Reason)
    requires Inv(s)
    ensures Inv(Abort(s, reason)) && Kept(s, Abort(s, reason))
  {
    hide Numbered, Correlated, RequestsKept, Bounded;
    ResolveAllKeeps(s.requests, s.pending, s.nextId, Revoked(reason));
    RequestsKeptIsReflexive(s.requests);
  }

  lemma ReaderRaisedKeeps(s: State, reason: Reason)
    requires Inv(s)
    ensures Inv(ReaderRaised(s, reason)) && Kept(s, ReaderRaised(s, reason))
  {
    hide Numbered, Correlated, RequestsKept, Bounded, Abort;
    AbortKeeps(s.(reading := false), reason);
    RequestsKeptIsReflexive(s.requests);
  }

  lemma AdmitResponseKeeps(s: State, m: Envelope, raises: bool)
    requires Inv(s) && m.id.IntId? && m.result.Some? == m.error.NoError?
    ensures Inv(AdmitResponse(s, m, raises).state) && Kept(s, AdmitResponse(s, m, raises).state)
  {
    var id := m.id.number;
    RequestsKeptIsReflexive(s.requests);
    if id in s.pending {
      assert id in s.requests && s.requests[id].fate.Open?;
      if !s.requests[id].sent {
        assert s.requests == s.requests[id := s.requests[id]];
      }
      hide Numbered, Correlated, RequestsKept, Bounded;
      var t := AdmitResponse(s, m, raises).state;
      assert t.requests == s.requests[id := t.requests[id]];
      PopKeeps(s.requests, s.pending, s.nextId, id, t.requests[id]);
    }
  }

  lemma AdmitCallbackKeeps(s: State, id: Id, raises: bool)
    requires Inv(s)
    ensures Inv(AdmitCallback(s, id, raises).state) && Kept(s, AdmitCallback(s, id, raises).state)
  {
    hide Numbered, Correlated, RequestsKept;
    RequestsKeptIsReflexive(s.requests);
  }

  lemma AdmitKeeps(s: State, m: Envelope, raises: bool)
    requires Inv(s)
    ensures Inv(Admit(s, m, raises).state) && Kept(s, Admit(s, m, raises).state)
  {
    hide Numbered, Correlated, RequestsKept, Bounded, AdmitResponse, AdmitCallback;
    RequestsKeptIsReflexive(s.requests);
    AdmitCallbackKeeps(s, m.id, raises);
    if m.id.IntId? && m.result.Some? == m.error.NoError? {
      AdmitResponseKeeps(s, m, raises);
    }
  }

  lemma ReceiveKeeps(s: State, m: Envelope, raises: bool, reason: Reason)
    requires Inv(s) && s.reading
    ensures var n := Next(s, Receive(m, raises, reason)); Inv(n) && Kept(s, n)
  {
    hide Inv, Kept, Admit, ReaderRaised;
    var t := Admit(s, m, raises).state;
    AdmitKeeps(s, m, raises);
    ReaderRaisedKeeps(t, reason);
    KeptIsTransitive(s, t, ReaderRaised(t, reason));
  }

  lemma CallbackEndsKeeps(s: State, callback: Id, end: CallbackEnd)
    requires Inv(s) && callback in s.callbacks
    ensures var n := Next(s, CallbackEnds(callback, end)); Inv(n) && Kept(s, n)
  {
    hide Numbered, Correlated, RequestsKept, Abort;
    RequestsKeptIsReflexive(s.requests);
    if end.CallbackRaised? {
      AbortKeeps(s.(callbacks := s.callbacks - {callback}), end.reason);
    }
  }

  lemma ReserveKeeps(s: State)
    requires Inv(s) && IsOpen(s)
    ensures Inv(Reserve(s)) && Kept(s, Reserve(s))
  {
  }

  lemma BeginDispatchKeeps(s: State, id: int)
    requires Inv(s) && Dispatchable(s, id)
    ensures Inv(BeginDispatch(s, id)) && Kept(s, BeginDispatch(s, id))
  {
  }

  lemma StepKeeps(s: State, e: Event)
    requires Inv(s) && Enabled(s, e)
    ensures Inv(Next(s, e)) && Kept(s, Next(s, e))
  {
    hide Numbered, Correlated, RequestsKept, Bounded, Abort, ReaderRaised, Reserve, BeginDispatch;
    RequestsKeptIsReflexive(s.requests);
    match e {
      case ReserveRequest => ReserveKeeps(s);
      case StartDispatch(id) => BeginDispatchKeeps(s, id);
      case Receive(message, raises, reason) => ReceiveKeeps(s, message, raises, reason);
      case ReadFailed(exited, reason) => ReaderRaisedKeeps(s.(running := s.running && !exited), reason);
      case CallbackEnds(callback, end) => CallbackEndsKeeps(s, callback, end);
      case Fail(reason) => AbortKeeps(s, reason);
      case Stop => ResolveAllKeeps(s.requests, s.pending, s.nextId, StoppedByOwner);
      case _ =>
    }
  }

  /** Every reachable state satisfies the invariant, and nothing kept is ever lost. */
  lemma {:induction false} RunKeeps(s: State, events: seq<Event>)
    requires Inv(s)
    ensures Inv(Run(s, events)) && Kept(s, Run(s, events))
    decreases |events|
  {
    if events != [] {
      if Enabled(s, events[0]) {
        StepKeeps(s, events[0]);
        RunKeeps(Next(s, events[0]), events[1..]);
        KeptIsTransitive(s, Next(s, events[0]), Run(s, events));
      } else {
        RunKeeps(s, events[1..]);
      }
    }
  }

  ghost predicate Reachable(s: State) {
    exists maxCallbacks: nat, events: seq<Event> :: s == Run(Started(maxCallbacks), events)
  }

  lemma ReachableIsSound(s: State)
    requires Reachable(s)
    ensures Inv(s)
  {
    var maxCallbacks: nat, events: seq<Event> :| s == Run(Started(maxCallbacks), events);
    RunKeeps(Started(maxCallbacks), events);
  }

  // --- main results ----------------------------------------------------------------------------

  function FateOf(s: State, id: int): Fate {
    if id in s.requests then s.requests[id].fate else Open
  }

  predicate WasSent(s: State, id: int) {
    id in s.requests && s.requests[id].sent
  }

  /** A request's future is resolved at most once, whatever happens later; and the identity a later
    * `reserve` gives is larger than every identity given before. */
  lemma ResolvedOnce(s: State, events: seq<Event>, id: int)
    requires Reachable(s) && id in s.requests
    ensures !FateOf(s, id).Open? ==> FateOf(Run(s, events), id) == FateOf(s, id)
    ensures id in Run(s, events).requests && Run(s, events).nextId + 1 > id
    ensures Run(s, events).nextId + 1 !in Run(s, events).requests
  {
    ReachableIsSound(s);
    RunKeeps(s, events);
  }

  /** A request that was sent is unresolved only as long as it is pending on a transport that is
    * neither revoked nor stopping. */
  lemma SentRequestsSettle(s: State, id: int)
    requires Reachable(s) && WasSent(s, id)
    ensures FateOf(s, id).Open? <==> id in s.pending
    ensures FateOf(s, id).Open? ==> s.failure.None? && !s.stopping
  {
    ReachableIsSound(s);
  }

  /** The one event that may resolve a request, given how it is resolved. */
  predicate Explains(s: State, e: Event, t: State, id: int) {
    match FateOf(t, id)
    case Open => false
    case Answered(_) => e.Receive? && e.message.id == IntId(id) && e.message.name.NoMethod? && WasSent(s, id)
    case Rejected => e.Receive? && e.message.id == IntId(id) && e.message.name.NoMethod? && WasSent(s, id)
    case Revoked(reason) => s.failure.None? && t.failure == Some(reason)
    case StoppedByOwner => e.Stop?
  }

  /** A request is resolved by its own response, after it was sent; or by the first failure; or by the
    * owner's stop. No other step resolves it. */
  lemma WhatResolves(s: State, e: Event, id: int)
    requires Reachable(s) && Enabled(s, e)
    requires id in s.requests && FateOf(s, id).Open? && !FateOf(Next(s, e), id).Open?
    ensures Explains(s, e, Next(s, e), id)
  {
    match e {
      case Receive(m, raises, reason) => AdmitTouchesOne(s, m, raises, id);
      case _ =>
    }
  }

  lemma AdmitTouchesOne(s: State, m: Envelope, raises: bool, id: int)
    requires id in s.requests && FateOf(s, id).Open?
    ensures var t := Admit(s, m, raises).state;
            && (FateOf(t, id).Open? || FateOf(t, id).Answered? || FateOf(t, id).Rejected?)
            && (!FateOf(t, id).Open? ==> m.id == IntId(id) && m.name.NoMethod? && WasSent(s, id) && id !in t.pending)
            && t.failure == s.failure && t.stopping == s.stopping && t.expectedExit == s.expectedExit
  {
  }

  /** A response as JSON-RPC 2.0, section 5, wants it. */
  predicate IsResponse(m: Envelope) {
    && m.versionTwo && m.id.IntId? && m.name.NoMethod? && !m.extra && m.params.None?
    && m.result.Some? == m.error.NoError?
  }

  /** What a waiting request gets from a response that names it. */
  function ResponseFate(m: Envelope, raises: bool): Fate
    requires IsResponse(m)
  {
    if raises then Rejected
    else if m.result.Some? then Answered(Response(m.result.value, false))
    else if m.error.wellFormed then Answered(Response(m.error.content, true))
    else Rejected
  }

  /** A sent request takes the first response that names it, as it stands; a response that nobody
    * waits for, or whose observer or error member is bad, costs the transport its continuity. */
  lemma ResponsesAreCorrelated(s: State, m: Envelope, raises: bool, reason: Reason)
    requires Reachable(s) && s.reading && IsResponse(m)
    ensures var n, id := Next(s, Receive(m, raises, reason)), m.id.number;
            if WasSent(s, id) && FateOf(s, id).Open? then
              && FateOf(n, id) == ResponseFate(m, raises)
              && (ResponseFate(m, raises).Answered? ==> n.failure == s.failure)
              && (ResponseFate(m, raises).Rejected? && !s.expectedExit ==> n.failure == Some(reason))
            else
              && FateOf(n, id) in {FateOf(s, id), Revoked(reason)}
              && !n.reading
              && (s.stopping || s.expectedExit || n.failure.Some?)
  {
    ReachableIsSound(s);
    assert m.id.number in s.pending ==> m.id.number in s.requests && FateOf(s, m.id.number).Open?;
    assert WasSent(s, m.id.number) && FateOf(s, m.id.number).Open? ==> m.id.number in s.pending;
    hide Inv, Numbered, Correlated, Bounded, ResolveAll;
  }

  /** A notification and a server request as section 4 wants them. */
  predicate IsNotification(m: Envelope) {
    m.versionTwo && m.id.NoId? && m.name.Method? && !m.extra && m.result.None? && m.error.NoError?
  }

  predicate IsCallback(m: Envelope) {
    m.versionTwo && (m.id.IntId? || m.id.StrId?) && m.name.Method? && !m.extra && m.result.None? && m.error.NoError?
  }

  /** The envelopes the reader survives: a notification or a new callback within the limits whose handler does
    * not raise, and the answer to a request that was sent and waits for it. */
  predicate Survived(s: State, m: Envelope, raises: bool) {
    || (IsNotification(m) && !raises)
    || (IsCallback(m) && !raises && m.id !in s.callbackIds
        && |s.callbacks| < s.maxCallbacks && |s.callbackIds| < MAX_CALLBACK_IDS)
    || (IsResponse(m) && WasSent(s, m.id.number) && FateOf(s, m.id.number).Open? && ResponseFate(m, raises).Answered?)
  }

  /** Every other envelope ends the reader, and costs an open transport its continuity unless its exit is expected. */
  lemma WhatEndsTheReader(s: State, m: Envelope, raises: bool, reason: Reason)
    requires Reachable(s) && s.reading
    ensures var n := Next(s, Receive(m, raises, reason));
            && (n.reading <==> Survived(s, m, raises))
            && n.failure == if n.reading || s.failure.Some? || s.stopping || s.expectedExit then s.failure else Some(reason)
  {
    ReachableIsSound(s);
    if IsResponse(m) {
      assert m.id.number in s.pending ==> m.id.number in s.requests && FateOf(s, m.id.number).Open?;
      assert WasSent(s, m.id.number) && FateOf(s, m.id.number).Open? ==> m.id.number in s.pending;
    }
    hide Inv, ResolveAll;
  }

  /** A notification changes nothing exactly if its handler does not raise. */
  lemma NotificationsPass(s: State, m: Envelope, raises: bool, reason: Reason)
    requires s.reading && IsNotification(m)
    ensures Next(s, Receive(m, raises, reason)) == s <==> !raises
  {
  }

  /** A callback in the limits whose handler does not raise is known from then on and alive, and nothing else
    * changes; one whose handler raises is known too, so no later callback has its identity. */
  lemma CallbacksAreKnown(s: State, m: Envelope, raises: bool, reason: Reason)
    requires s.reading && IsCallback(m)
    requires m.id !in s.callbackIds && |s.callbacks| < s.maxCallbacks && |s.callbackIds| < MAX_CALLBACK_IDS
    ensures var n := Next(s, Receive(m, raises, reason));
            && n.callbackIds == s.callbackIds + {m.id}
            && n.callbacks == (if raises then s.callbacks else s.callbacks + {m.id})
            && (!raises ==> n == s.(callbackIds := n.callbackIds, callbacks := n.callbacks))
  {
    CallbackNext(s, m, raises, reason);
    hide Next, Admit, ResolveAll;
  }

  lemma CallbackNext(s: State, m: Envelope, raises: bool, reason: Reason)
    requires s.reading && IsCallback(m)
    ensures Next(s, Receive(m, raises, reason)) ==
              match AdmitCallback(s, m.id, raises)
              case Accepted(t) => t
              case Raised(t) => ReaderRaised(t, reason)
  {
    hide AdmitCallback, AdmitResponse, ReaderRaised;
  }

  /** The reason a step may revoke the transport for. */
  function Breach(s: State, e: Event): Option<Reason> {
    match e
    case Fail(reason) => Some(reason)
    case CallbackEnds(_, end) => if end.CallbackRaised? then Some(end.reason) else None
    case ReadFailed(_, reason) => if s.expectedExit then None else Some(reason)
    case Receive(m, raises, reason) => if s.expectedExit || Survived(s, m, raises) then None else Some(reason)
    case _ => None
  }

  /** The request a response is about to take from the table. */
  predicate Named(e: Event, id: int) {
    e.Receive? && IsResponse(e.message) && e.message.id == IntId(id)
  }

  /** A transport is revoked exactly by the first such step while its owner does not stop it. Every other pending
    * request learns the reason then. */
  lemma WhatRevokes(s: State, e: Event)
    requires Reachable(s) && Enabled(s, e)
    ensures Next(s, e).failure == if s.failure.Some? || s.stopping then s.failure else Breach(s, e)
    ensures forall id | id in s.pending && Next(s, e).failure != s.failure && !Named(e, id) ::
              Next(s, e).failure.Some? && FateOf(Next(s, e), id) == Revoked(Next(s, e).failure.value)
  {
    ReachableIsSound(s);
    if e.Receive? {
      WhatEndsTheReader(s, e.message, e.raises, e.reason);
      hide Survived;
      forall id | id in s.pending && Next(s, e).failure != s.failure && !Named(e, id)
        ensures Next(s, e).failure == Some(e.reason) && FateOf(Next(s, e), id) == Revoked(e.reason)
      {
        assert id in s.requests && FateOf(s, id).Open?;
        AdmitLeaves(s, e.message, e.raises, id);
        hide Inv, Admit;
      }
    }
  }

  lemma AdmitLeaves(s: State, m: Envelope, raises: bool, id: int)
    requires id in s.pending && id in s.requests && FateOf(s, id).Open? && !(IsResponse(m) && m.id == IntId(id))
    ensures var t := Admit(s, m, raises).state;
            && id in t.pending && id in t.requests && FateOf(t, id).Open?
            && t.failure == s.failure && t.stopping == s.stopping && t.expectedExit == s.expectedExit
  {
  }

  /** What the owner's steps do: a reservation on an open transport waits under a new identity, a dispatch happens
    * once, and a stop settles whatever is pending and closes the transport. */
  lemma WhatTheOwnerDoes(s: State, e: Event, events: seq<Event>)
    requires Reachable(s) && Enabled(s, e)
    ensures var n := Next(s, e);
            && (e.ReserveRequest? ==>
                  && n.nextId !in s.requests && n.pending == s.pending + {n.nextId}
                  && FateOf(n, n.nextId).Open? && Dispatchable(n, n.nextId))
            && (e.StartDispatch? ==>
                  WasSent(n, e.id) && n.pending == s.pending && !Dispatchable(Run(n, events), e.id))
            && (e.Stop? ==>
                  && !IsOpen(Run(n, events)) && n.pending == {} && n.failure == s.failure
                  && forall id | id in s.pending :: FateOf(n, id).StoppedByOwner?)
  {
    ReachableIsSound(s);
    StepKeeps(s, e);
    RunKeeps(Next(s, e), events);
  }

  /** A step takes the request out of the pending table and leaves it unresolved. */
  predicate Orphans(s: State, e: Event, id: int)
    requires Enabled(s, e)
  {
    id in s.pending && id !in Next(s, e).pending && FateOf(Next(s, e), id).Open?
  }

  /** A reserved request is orphaned exactly by a response that names it before it was sent. */
  lemma OrphanedByEarlyResponse(s: State, e: Event, id: int)
    requires Reachable(s) && Enabled(s, e)
    ensures Orphans(s, e, id) <==>
              && id in s.pending && !WasSent(s, id)
              && e.Receive? && IsResponse(e.message) && e.message.id == IntId(id)
  {
    ReachableIsSound(s);
    match e {
      case Receive(m, raises, reason) => ResponseOrphans(s, m, raises, reason, id);
      case _ =>
    }
  }

  lemma ResponseOrphans(s: State, m: Envelope, raises: bool, reason: Reason, id: int)
    requires Inv(s) && s.reading
    ensures Orphans(s, Receive(m, raises, reason), id) <==>
              id in s.pending && !WasSent(s, id) && IsResponse(m) && m.id == IntId(id)
  {
    if id in s.pending {
      assert id in s.requests && s.requests[id].fate.Open?;
      AdmitTouchesOne(s, m, raises, id);
      AdmitPops(s, m, raises, id);
      hide Inv, Admit;
    }
  }

  /** Only a response that names a pending request takes it out of the table on admission. */
  lemma AdmitPops(s: State, m: Envelope, raises: bool, id: int)
    requires id in s.pending && id in s.requests && FateOf(s, id).Open?
    ensures var t := Admit(s, m, raises).state;
            && (id in t.pending <==> !(IsResponse(m) && m.id == IntId(id)))
            && (id !in t.pending && !WasSent(s, id) ==> FateOf(t, id).Open? && Admit(s, m, raises).Raised?)
            && (id !in t.pending && WasSent(s, id) ==> !FateOf(t, id).Open?)
  {
  }

  /** And then nothing ever resolves it, and no dispatch accepts it. */
  lemma {:induction false} OrphansStay(s: State, id: int, events: seq<Event>)
    requires Inv(s) && id in s.requests && FateOf(s, id).Open? && id !in s.pending
    ensures var t := Run(s, events);
            id in t.requests && FateOf(t, id).Open? && id !in t.pending && !WasSent(t, id) && !Dispatchable(t, id)
    decreases |events|
  {
    if events != [] {
      if Enabled(s, events[0]) {
        StepKeeps(s, events[0]);
        OrphanStep(s, id, events[0]);
        OrphansStay(Next(s, events[0]), id, events[1..]);
      } else {
        OrphansStay(s, id, events[1..]);
      }
    }
  }

  /** It happens: two steps after the start, and for good. */
  lemma OrphanRun(maxCallbacks: nat, m: Envelope, raises: bool, reason: Reason, events: seq<Event>)
    requires IsResponse(m) && m.id == IntId(1)
    ensures var t := Run(Started(maxCallbacks), [ReserveRequest, Receive(m, raises, reason)] + events);
            1 in t.requests && FateOf(t, 1).Open? && 1 !in t.pending && !Dispatchable(t, 1)
  {
    var s := Started(maxCallbacks);
    var reserved := Next(s, ReserveRequest);
    var run := [ReserveRequest, Receive(m, raises, reason)] + events;
    assert run[1..][1..] == events;
    StepKeeps(s, ReserveRequest);
    StepKeeps(reserved, Receive(m, raises, reason));
    ResponseOrphans(reserved, m, raises, reason, 1);
    OrphansStay(Next(reserved, Receive(m, raises, reason)), 1, events);
    hide Inv, Admit;
  }

  lemma OrphanStep(s: State, id: int, e: Event)
    requires Inv(s) && Enabled(s, e) && id in s.requests && FateOf(s, id).Open? && id !in s.pending
    ensures FateOf(Next(s, e), id).Open? && id !in Next(s, e).pending
  {
    match e {
      case Receive(m, raises, reason) => AdmitTouchesOne(s, m, raises, id);
      case _ =>
    }
  }

  /** One-way revocation: the first failure is the only one, empties the pending table for good,
    * is told to the observers once, and the transport never opens again. */
  lemma RevocationIsOneWay(s: State, events: seq<Event>)
    requires Reachable(s) && s.failure.Some?
    ensures var t := Run(s, events);
            && t.failure == s.failure && t.notices == [s.failure.value]
            && t.pending == {} && !IsOpen(t)
  {
    ReachableIsSound(s);
    RunKeeps(s, events);
  }

  /** A callback identity is admitted at most once in the life of a transport, and the live callbacks
    * stay within the limit. */
  lemma CallbacksAreAdmittedOnce(s: State, events: seq<Event>, m: Envelope, raises: bool)
    requires Reachable(s) && m.id in s.callbackIds
    ensures m.name.Method? && !m.id.NoId? ==> Admit(Run(s, events), m, raises).Raised?
    ensures |Run(s, events).callbacks| <= s.maxCallbacks
  {
    ReachableIsSound(s);
    RunKeeps(s, events);
  }

  // --- callbacks after revocation ---------------------------------------------------------------

  /** `_admit` never looks at the failure: while the reader has not been stopped, a revoked transport
    * still admits callbacks, exactly as an open one would. */
  lemma RevokedTransportAdmitsCallbacks(s: State, m: Envelope, reason: Reason)
    requires Reachable(s) && s.reading && !s.stopping
    requires m.versionTwo && m.name.Method? && (m.id.IntId? || m.id.StrId?)
    requires !m.extra && m.result.None? && m.error.NoError?
    ensures var revoked := Abort(s, reason);
            && revoked.failure.Some?
            && (m.id in Next(revoked, Receive(m, false, reason)).callbacks
                <==> m.id in Next(s, Receive(m, false, reason)).callbacks)
    ensures m.id in Next(s, Receive(m, false, reason)).callbacks <==>
              m.id in s.callbacks
              || (m.id !in s.callbackIds && |s.callbacks| < s.maxCallbacks && |s.callbackIds| < MAX_CALLBACK_IDS)
  {
    ReachableIsSound(s);
  }
}
