/** The native turn protocol of `native_client.py`: progress, terminal response, callbacks
    and effects of one turn at a time, and the conversation binding across turns. */
module NativeTurns {
  import opened Basics

  type SessionId(==,!new)
  type ConversationId(==,!new)
  type NativeTurnId(==,!new)
  type ModelId(==,!new)
  type CallId(==,!new)
  type Fingerprint(==,!new)
  type Reason(==,!new)
  type ToolName(==,!new)

  datatype Binding =
    | Allocated(model: ModelId)
    | Conversation(model: ModelId, conversation: ConversationId, turn: NativeTurnId)

  datatype EvidenceKind = ProgressEvidence | InvocationEvidence | ConfirmationEvidence | ResultEvidence

  /** One raw observation; `size` is the length of its JSON text in UTF-8. */
  datatype Evidence = Evidence(kind: EvidenceKind, size: nat, tag: nat)

  datatype Reply = Reply(size: nat, tag: nat)

  datatype Scope = BridgeTool | ServerTool

  /** What may not change about a tool call once it was observed. */
  datatype ToolIdentity = ToolIdentity(name: ToolName, scope: Scope)

  datatype ToolCall = ToolCall(call: CallId, identity: ToolIdentity)

  type Tools = map<CallId, ToolIdentity>

  /** One chunk of a report: what can be read from it, and whether it is malformed after that. */
  datatype Chunk = Chunk(reply: Option<Reply>, tools: seq<ToolCall>, malformed: bool)

  /** A progress value, already parsed as JSON. */
  datatype Progress =
    | Begin(conversation: ConversationId, turn: NativeTurnId)
    | Report(conversation: ConversationId, turn: NativeTurnId)
    | End(conversation: ConversationId, turn: NativeTurnId, reason: Option<Reason>, error: Option<Reason>)

  datatype Rpc =
    | RpcError(error: Reason)
    | RpcResult(conversation: ConversationId, turn: NativeTurnId, model: ModelId)

  datatype Terminal =
    | NativeCompleted(observation: Observation)
    | NativeCancelled(observation: Observation, reason: Option<Reason>)
    | NativeFailed(observation: Observation, error: Reason)
    | NotSettled(observation: Observation)

  datatype Observation = Observation(binding: Binding, response: seq<Reply>, events: seq<Evidence>, tools: Tools,
                                     effects: seq<CallId>, complete: bool)

  /** What becomes of a callback. `TurnedAway` and `Stranded` raise; a stranded callback is on record but is
      never answered, because its tool was observed under another name or scope. */
  datatype Verdict = TurnedAway | Stranded | Taken

  /** What the read loop accepted, in order. */
  datatype Mark = Began | Reported | Ended | Answered

  function Size(events: seq<Evidence>): nat {
    if events == [] then 0 else Size(events[..|events| - 1]) + events[|events| - 1].size
  }

  function ReplySize(replies: seq<Reply>): nat {
    if replies == [] then 0 else ReplySize(replies[..|replies| - 1]) + replies[|replies| - 1].size
  }

  ghost predicate Distinct<T>(xs: seq<T>) {
    forall i, j :: 0 <= i < j < |xs| ==> xs[i] != xs[j]
  }

  /** Any number of begins and reports, then at most one end, then at most one answer. */
  ghost predicate LogOk(log: seq<Mark>, begun: bool, ended: bool, rpcEnded: bool) {
    var tail := (if ended then 1 else 0) + (if rpcEnded then 1 else 0);
    && |log| >= tail
    && (rpcEnded ==> ended && log[|log| - 1] == Answered)
    && (ended ==> log[|log| - tail] == Ended)
    && (forall i | 0 <= i < |log| - tail :: log[i] == Began || log[i] == Reported)
    && (forall i, j | 0 <= i < j < |log| :: !(log[i] == Began && log[j] == Began))
    && (Began in log <==> begun)
  }

  /** The record is a prefix of what was offered, within its limit; `full`: it ended because the next
      piece did not fit, so it is the longest prefix that does. */
  ghost predicate EvidenceOk(events: seq<Evidence>, offered: seq<Evidence>, bytes: nat, limit: nat, overflow: bool,
                             full: bool)
  {
    && bytes == Size(events) <= limit && events <= offered && (!overflow ==> events == offered)
    && (full ==> overflow && |events| < |offered| && bytes + offered[|events|].size > limit)
  }

  /** The longest prefix of the evidence offered that fits the budget. */
  function Fitting(offered: seq<Evidence>, limit: nat): (n: nat)
    ensures n <= |offered| && Size(offered[..n]) <= limit
    ensures n < |offered| ==> Size(offered[..n]) + offered[n].size > limit
  {
    FittingFrom(offered, limit, 0)
  }

  function FittingFrom(offered: seq<Evidence>, limit: nat, k: nat): (n: nat)
    requires k <= |offered| && Size(offered[..k]) <= limit
    ensures k <= n <= |offered| && Size(offered[..n]) <= limit
    ensures n < |offered| ==> Size(offered[..n]) + offered[n].size > limit
    decreases |offered| - k
  {
    if k == |offered| then k
    else
      assert offered[..k + 1][..|offered[..k + 1]| - 1] == offered[..k];
      if Size(offered[..k]) + offered[k].size > limit then k else FittingFrom(offered, limit, k + 1)
  }

  /** Sizes only grow along a sequence. */
  lemma {:induction false} SizeOfPrefix(events: seq<Evidence>, k: nat)
    requires k <= |events|
    ensures Size(events[..k]) <= Size(events)
    decreases |events| - k
  {
    if k == |events| {
      assert events[..k] == events;
    } else {
      SizeOfPrefix(events, k + 1);
      assert events[..k + 1][..|events[..k + 1]| - 1] == events[..k];
    }
  }

  /** Nothing longer fits, so a complete record means everything offered was within budget. */
  lemma FittingIsLongest(offered: seq<Evidence>, limit: nat, k: nat)
    requires k <= |offered|
    ensures Size(offered[..k]) <= limit <==> k <= Fitting(offered, limit)
  {
    var n := Fitting(offered, limit);
    if k <= n {
      SizeOfPrefix(offered[..n], k);
      assert offered[..n][..k] == offered[..k];
    } else {
      SizeOfPrefix(offered[..k], n + 1);
      assert offered[..k][..n + 1] == offered[..n + 1];
      assert offered[..n + 1][..|offered[..n + 1]| - 1] == offered[..n];
    }
  }

  /** A full record is the longest prefix that fits. */
  lemma FullRecordIsLongest(events: seq<Evidence>, offered: seq<Evidence>, bytes: nat, limit: nat, overflow: bool)
    requires EvidenceOk(events, offered, bytes, limit, overflow, true)
    ensures events == offered[..Fitting(offered, limit)]
  {
    var k := |events|;
    assert offered[..k] == events;
    assert offered[..k + 1][..|offered[..k + 1]| - 1] == events;
    FittingIsLongest(offered, limit, k);
    FittingIsLongest(offered, limit, k + 1);
  }

  /** The same for replies; `cut`: the response ended because the next reply did not fit. */
  ghost predicate RepliesOk(response: seq<Reply>, replies: seq<Reply>, bytes: nat, limit: nat, overflow: bool,
                            cut: bool)
  {
    && bytes == ReplySize(response) <= limit && response <= replies && (!overflow ==> response == replies)
    && (cut ==> overflow && |response| < |replies| && bytes + replies[|response|].size > limit)
  }

  /** Tool calls are entered one by one, until one has changed its identity. */
  function SeeTools(tools: Tools, calls: seq<ToolCall>): (Tools, bool) {
    if calls == [] then (tools, true)
    else
      var (seen, sound) := SeeTools(tools, calls[..|calls| - 1]);
      var last := calls[|calls| - 1];
      if !sound || (last.call in seen && seen[last.call] != last.identity) then (seen, false)
      else (seen[last.call := last.identity], true)
  }

  /** What is read from the chunks of a report, until one of them raises. */
  datatype Reading = Reading(tools: Tools, replies: seq<Reply>, sound: bool)

  function ReadChunks(tools: Tools, chunks: seq<Chunk>): Reading {
    if chunks == [] then Reading(tools, [], true)
    else
      var before := ReadChunks(tools, chunks[..|chunks| - 1]);
      if before.sound then ReadChunk(before, chunks[|chunks| - 1]) else before
  }

  function ReadChunk(before: Reading, chunk: Chunk): Reading {
    var (seen, sound) := SeeTools(before.tools, chunk.tools);
    Reading(seen, before.replies + (if chunk.reply.Some? then [chunk.reply.value] else []), sound && !chunk.malformed)
  }

  /** No tool call changes its identity: not from what was observed before, nor among the calls. */
  ghost predicate ToolsAgree(tools: Tools, calls: seq<ToolCall>) {
    && (forall i :: 0 <= i < |calls| && calls[i].call in tools ==> tools[calls[i].call] == calls[i].identity)
    && (forall i, j :: 0 <= i < j < |calls| && calls[i].call == calls[j].call ==> calls[i].identity == calls[j].identity)
  }

  ghost predicate ToolsKept(before: Tools, after: Tools) {
    forall c :: c in before ==> c in after && after[c] == before[c]
  }

  lemma {:induction false} SeeToolsKeeps(tools: Tools, calls: seq<ToolCall>)
    ensures ToolsKept(tools, SeeTools(tools, calls).0)
    decreases |calls|
  {
    if calls != [] {
      SeeToolsKeeps(tools, calls[..|calls| - 1]);
    }
  }

  /** What was entered is there, and what is there was there before or was entered. */
  lemma {:induction false} SeeToolsEnters(tools: Tools, calls: seq<ToolCall>)
    requires SeeTools(tools, calls).1
    ensures forall i :: 0 <= i < |calls| ==>
              calls[i].call in SeeTools(tools, calls).0 && SeeTools(tools, calls).0[calls[i].call] == calls[i].identity
    ensures forall c :: c in SeeTools(tools, calls).0 && c !in tools ==> exists i :: 0 <= i < |calls| && calls[i].call == c
    decreases |calls|
  {
    if calls != [] {
      var n := |calls| - 1;
      var init := calls[..n];
      SeeToolsEnters(tools, init);
      var before := SeeTools(tools, init).0;
      forall c | c in SeeTools(tools, calls).0 && c !in tools
        ensures exists i :: 0 <= i < |calls| && calls[i].call == c
      {
        if c in before {
          var i :| 0 <= i < |init| && init[i].call == c;
          assert calls[i].call == c;
        } else {
          assert calls[n].call == c;
        }
      }
    }
  }

  /** Tool calls are all entered exactly when none of them changes its identity. */
  lemma {:induction false} SeeToolsAgrees(tools: Tools, calls: seq<ToolCall>)
    ensures SeeTools(tools, calls).1 <==> ToolsAgree(tools, calls)
    decreases |calls|
  {
    if SeeTools(tools, calls).1 {
      SeeToolsEnters(tools, calls);
      SeeToolsKeeps(tools, calls);
    } else {
      SeeToolsStops(tools, calls);
    }
  }

  lemma {:induction false} SeeToolsStops(tools: Tools, calls: seq<ToolCall>)
    requires !SeeTools(tools, calls).1
    ensures !ToolsAgree(tools, calls)
    decreases |calls|
  {
    var n := |calls| - 1;
    var init := calls[..n];
    assert forall i :: 0 <= i < n ==> init[i] == calls[i];
    if SeeTools(tools, init).1 {
      SeeToolsEnters(tools, init);
      SeeToolsKeeps(tools, init);
      if calls[n].call !in tools {
        var i :| 0 <= i < |init| && init[i].call == calls[n].call;
        assert calls[i].call == calls[n].call;
      }
    } else {
      SeeToolsStops(tools, init);
    }
  }

  lemma ToolsKeptReflexive(tools: Tools)
    ensures ToolsKept(tools, tools)
  {
  }

  /** What follows a call that raises is not read. */
  lemma {:induction false} StuckTools(tools: Tools, calls: seq<ToolCall>, k: nat)
    requires k <= |calls| && !SeeTools(tools, calls[..k]).1
    ensures SeeTools(tools, calls) == SeeTools(tools, calls[..k])
    decreases |calls|
  {
    if k == |calls| {
      assert calls[..k] == calls;
    } else {
      var init := calls[..|calls| - 1];
      assert init[..k] == calls[..k];
      StuckTools(tools, init, k);
    }
  }

  lemma {:induction false} StuckReading(tools: Tools, chunks: seq<Chunk>, k: nat)
    requires k <= |chunks| && !ReadChunks(tools, chunks[..k]).sound
    ensures ReadChunks(tools, chunks) == ReadChunks(tools, chunks[..k])
    decreases |chunks|
  {
    if k == |chunks| {
      assert chunks[..k] == chunks;
    } else {
      var init := chunks[..|chunks| - 1];
      assert init[..k] == chunks[..k];
      StuckReading(tools, init, k);
    }
  }

  lemma {:induction false} ReadingKeepsTools(tools: Tools, chunks: seq<Chunk>)
    ensures ToolsKept(tools, ReadChunks(tools, chunks).tools)
    decreases |chunks|
  {
    if chunks != [] {
      var init := chunks[..|chunks| - 1];
      ReadingKeepsTools(tools, init);
      SeeToolsKeeps(ReadChunks(tools, init).tools, chunks[|chunks| - 1].tools);
    }
  }

  /** The replies and the tool calls of a report's chunks, in their order. */
  function RepliesOf(chunks: seq<Chunk>): seq<Reply> {
    if chunks == [] then [] else (if chunks[0].reply.Some? then [chunks[0].reply.value] else []) + RepliesOf(chunks[1..])
  }

  function CallsOf(chunks: seq<Chunk>): seq<ToolCall> {
    if chunks == [] then [] else chunks[0].tools + CallsOf(chunks[1..])
  }

  /** Tool calls may be entered in two goes. */
  lemma {:induction false} SeeToolsInTwo(tools: Tools, first: seq<ToolCall>, rest: seq<ToolCall>)
    ensures SeeTools(tools, first + rest) ==
              if SeeTools(tools, first).1 then SeeTools(SeeTools(tools, first).0, rest) else SeeTools(tools, first)
    decreases |rest|
  {
    if |rest| == 0 {
      assert first + rest == first;
    } else {
      var n := |rest| - 1;
      assert (first + rest)[..|first + rest| - 1] == first + rest[..n] && (first + rest)[|first + rest| - 1] == rest[n];
      SeeToolsInTwo(tools, first, rest[..n]);
    }
  }

  lemma {:induction false} LastChunk(chunks: seq<Chunk>, chunk: Chunk)
    ensures RepliesOf(chunks + [chunk]) == RepliesOf(chunks) + (if chunk.reply.Some? then [chunk.reply.value] else [])
    ensures CallsOf(chunks + [chunk]) == CallsOf(chunks) + chunk.tools
    decreases |chunks|
  {
    if |chunks| == 0 {
      assert chunks + [chunk] == [chunk] && [chunk][1..] == [];
    } else {
      assert (chunks + [chunk])[0] == chunks[0] && (chunks + [chunk])[1..] == chunks[1..] + [chunk];
      LastChunk(chunks[1..], chunk);
    }
  }

  /** A chunk is at fault. */
  ghost predicate Malformed(chunks: seq<Chunk>) {
    exists i :: 0 <= i < |chunks| && chunks[i].malformed
  }

  /** A report is sound exactly when no chunk of it is malformed and none of its tool calls changes its identity, and
      then its replies and tools are those of all its chunks. */
  lemma {:induction false} SoundReading(tools: Tools, chunks: seq<Chunk>)
    ensures var reading := ReadChunks(tools, chunks);
      && (reading.sound <==> !Malformed(chunks) && ToolsAgree(tools, CallsOf(chunks)))
      && (reading.sound ==> reading.replies == RepliesOf(chunks) && reading.tools == SeeTools(tools, CallsOf(chunks)).0)
    decreases |chunks|
  {
    SeeToolsAgrees(tools, CallsOf(chunks));
    if |chunks| > 0 {
      var n := |chunks| - 1;
      var init := chunks[..n];
      SoundReading(tools, init);
      SeeToolsAgrees(tools, CallsOf(init));
      LastChunk(init, chunks[n]);
      assert chunks == init + [chunks[n]];
      SeeToolsInTwo(tools, CallsOf(init), chunks[n].tools);
      MalformedAtLast(init, chunks[n]);
      hide ToolsAgree, SeeTools, RepliesOf, CallsOf, Malformed;
    }
  }

  lemma MalformedAtLast(chunks: seq<Chunk>, chunk: Chunk)
    ensures Malformed(chunks + [chunk]) <==> Malformed(chunks) || chunk.malformed
  {
    assert (chunks + [chunk])[|chunks|] == chunk;
    if i :| 0 <= i < |chunks| && chunks[i].malformed {
      assert (chunks + [chunk])[i].malformed;
    }
  }

  /** Chunk `k` is the first at fault. */
  ghost predicate FirstFault(tools: Tools, chunks: seq<Chunk>, k: nat) {
    k < |chunks| && ReadChunks(tools, chunks[..k]).sound && !ReadChunks(tools, chunks[..k + 1]).sound
  }

  /** Otherwise its replies are those up to the first chunk at fault, that one included. */
  lemma {:induction false} FaultyReading(tools: Tools, chunks: seq<Chunk>)
    requires !ReadChunks(tools, chunks).sound
    ensures exists k: nat :: FirstFault(tools, chunks, k) && ReadChunks(tools, chunks).replies == RepliesOf(chunks[..k + 1])
    decreases |chunks|
  {
    var n := |chunks| - 1;
    var init := chunks[..n];
    if ReadChunks(tools, init).sound {
      SoundReading(tools, init);
      LastChunk(init, chunks[n]);
      assert chunks == init + [chunks[n]] && chunks[..n + 1] == chunks;
      assert FirstFault(tools, chunks, n);
    } else {
      FaultyReading(tools, init);
      var k: nat :| FirstFault(tools, init, k) && ReadChunks(tools, init).replies == RepliesOf(init[..k + 1]);
      assert init[..k] == chunks[..k] && init[..k + 1] == chunks[..k + 1];
      assert FirstFault(tools, chunks, k);
    }
  }

  ghost predicate EffectsOk(effects: seq<CallId>, receipts: seq<CallId>, overflow: bool) {
    effects <= receipts && Distinct(receipts) && (!overflow ==> effects == receipts)
  }

  /** What an accepted callback offers to the record: a confirmation its decision; an invocation itself,
      and its result at once when its arguments form no operation. */
  function CallbackEvidence(confirmation: bool, decoded: bool, first: Evidence, second: Evidence): seq<Evidence> {
    if confirmation then [second] else if decoded then [first] else [first, second]
  }

  /** Every invocation is a distinct callback with one receipt, given or owed, unless it was stranded. */
  ghost predicate CallsOk(phases: set<(CallId, bool)>, live: set<(CallId, bool)>, waiting: set<CallId>,
                          receipts: seq<CallId>, started: seq<CallId>, stranded: set<CallId>)
  {
    && Distinct(started)
    && live <= phases
    && (forall c :: (c, false) in phases <==> c in waiting || c in receipts || c in stranded)
    && (forall c | c in waiting :: c !in receipts && (c, false) in live)
    && (forall c | c in stranded :: c !in receipts && c !in waiting)
    && (forall c | c in started :: (c, false) in phases)
  }

  /** A callback the turn accepted: the confirmation or the invocation of a call, with its name and
      normalized input, and the identity it bore. */
  datatype Admission = Admission(call: CallId, confirmation: bool, input: Fingerprint, conversation: ConversationId,
                                 turn: NativeTurnId)

  /** Every accepted callback bears the identity the session is bound to. */
  ghost predicate OfTheTurn(admitted: seq<Admission>, binding: Binding) {
    forall i :: 0 <= i < |admitted| ==>
      binding.Conversation? && admitted[i].conversation == binding.conversation && admitted[i].turn == binding.turn
  }

  /** At most one confirmation and one invocation of each call, and both with the same input. */
  ghost predicate OncePerPhase(admitted: seq<Admission>) {
    forall i, j :: 0 <= i < j < |admitted| && admitted[i].call == admitted[j].call ==>
      admitted[i].confirmation != admitted[j].confirmation && admitted[i].input == admitted[j].input
  }

  ghost predicate InPhase(admitted: seq<Admission>, p: (CallId, bool)) {
    exists i :: 0 <= i < |admitted| && (admitted[i].call, admitted[i].confirmation) == p
  }

  ghost predicate HasInput(admitted: seq<Admission>, c: CallId, input: Fingerprint) {
    exists i :: 0 <= i < |admitted| && admitted[i].call == c && admitted[i].input == input
  }

  /** The phases and inputs on record are exactly those of the callbacks accepted so far. */
  ghost predicate AdmittedOk(admitted: seq<Admission>, phases: set<(CallId, bool)>, inputs: map<CallId, Fingerprint>) {
    && OncePerPhase(admitted)
    && (forall i :: 0 <= i < |admitted| ==>
          && (admitted[i].call, admitted[i].confirmation) in phases
          && admitted[i].call in inputs && inputs[admitted[i].call] == admitted[i].input)
    && (forall p :: p in phases ==> InPhase(admitted, p))
    && (forall c :: c in inputs ==> HasInput(admitted, c, inputs[c]))
  }

  ghost predicate InputsKept(before: map<CallId, Fingerprint>, after: map<CallId, Fingerprint>) {
    forall c :: c in before ==> c in after && after[c] == before[c]
  }

  /** So the accepted callbacks determine them. */
  lemma AdmittedTell(before: seq<Admission>, phases: set<(CallId, bool)>, inputs: map<CallId, Fingerprint>,
                     after: seq<Admission>, phases': set<(CallId, bool)>, inputs': map<CallId, Fingerprint>)
    requires AdmittedOk(before, phases, inputs) && AdmittedOk(after, phases', inputs') && before <= after
    ensures phases <= phases' && InputsKept(inputs, inputs')
  {
    hide OncePerPhase;
    forall p | p in phases
      ensures p in phases'
    {
      assert InPhase(before, p);
      var i :| 0 <= i < |before| && (before[i].call, before[i].confirmation) == p;
      assert after[i] == before[i];
    }
    forall c | c in inputs
      ensures c in inputs' && inputs'[c] == inputs[c]
    {
      assert HasInput(before, c, inputs[c]);
      var i :| 0 <= i < |before| && before[i].call == c && before[i].input == inputs[c];
      assert after[i] == before[i];
    }
  }

  /** The call's invocation was accepted. */
  ghost predicate Invoked(admitted: seq<Admission>, c: CallId) {
    InPhase(admitted, (c, false))
  }

  lemma AdmittedGrows(admitted: seq<Admission>, phases: set<(CallId, bool)>, inputs: map<CallId, Fingerprint>, a: Admission)
    requires AdmittedOk(admitted, phases, inputs)
    requires (a.call, a.confirmation) !in phases && (a.call in inputs ==> inputs[a.call] == a.input)
    ensures AdmittedOk(admitted + [a], phases + {(a.call, a.confirmation)}, inputs[a.call := a.input])
  {
    var more := admitted + [a];
    AdmissionAdded(admitted, a);
    OnceMore(admitted, a);
    hide InPhase, HasInput, OncePerPhase;
    forall i | 0 <= i < |more|
      ensures (more[i].call, more[i].confirmation) in phases + {(a.call, a.confirmation)}
      ensures more[i].call in inputs[a.call := a.input] && inputs[a.call := a.input][more[i].call] == more[i].input
    {
      if i < |admitted| {
        assert more[i] == admitted[i];
      }
    }
  }

  lemma OnceMore(admitted: seq<Admission>, a: Admission)
    requires OncePerPhase(admitted)
    requires forall i :: 0 <= i < |admitted| && admitted[i].call == a.call ==>
               admitted[i].confirmation != a.confirmation && admitted[i].input == a.input
    ensures OncePerPhase(admitted + [a])
  {
  }

  lemma AdmissionAdded(admitted: seq<Admission>, a: Admission)
    ensures InPhase(admitted + [a], (a.call, a.confirmation)) && HasInput(admitted + [a], a.call, a.input)
    ensures forall p {:trigger InPhase(admitted, p)} :: InPhase(admitted, p) ==> InPhase(admitted + [a], p)
    ensures forall c, input {:trigger HasInput(admitted, c, input)} ::
              HasInput(admitted, c, input) ==> HasInput(admitted + [a], c, input)
  {
    var more := admitted + [a];
    assert more[|admitted|] == a;
    forall p | InPhase(admitted, p)
      ensures InPhase(more, p)
    {
      var i :| 0 <= i < |admitted| && (admitted[i].call, admitted[i].confirmation) == p;
      assert more[i] == admitted[i];
    }
    forall c, input | HasInput(admitted, c, input)
      ensures HasInput(more, c, input)
    {
      var i :| 0 <= i < |admitted| && admitted[i].call == c && admitted[i].input == input;
      assert more[i] == admitted[i];
    }
  }

  lemma LogGrows(log: seq<Mark>, begun: bool, ended: bool, mark: Mark)
    requires LogOk(log, begun, ended, false)
    requires (mark.Began? && !begun && !ended) || (mark.Reported? && !ended) || (mark.Ended? && !ended) || (mark.Answered? && ended)
    ensures LogOk(log + [mark], begun || mark.Began?, ended || mark.Ended?, mark.Answered?)
  {
    assert (log + [mark])[|log|] == mark;
    assert forall x :: x in log + [mark] <==> x in log || x == mark;
  }

  /** Admitting a callback: an invocation owes a receipt or has just been given one. */
  lemma CallsAdmit(phases: set<(CallId, bool)>, live: set<(CallId, bool)>, waiting: set<CallId>,
                   receipts: seq<CallId>, started: seq<CallId>, stranded: set<CallId>,
                   c: CallId, confirmation: bool, owed: bool)
    requires CallsOk(phases, live, waiting, receipts, started, stranded) && (c, confirmation) !in phases
    ensures !confirmation ==> c !in receipts
    ensures CallsOk(phases + {(c, confirmation)}, live + {(c, confirmation)},
                    if !confirmation && owed then waiting + {c} else waiting,
                    if !confirmation && !owed then receipts + [c] else receipts, started, stranded)
  {
  }

  /** An invocation is recorded and goes no further. */
  lemma CallsStrand(phases: set<(CallId, bool)>, live: set<(CallId, bool)>, waiting: set<CallId>,
                    receipts: seq<CallId>, started: seq<CallId>, stranded: set<CallId>, c: CallId)
    requires CallsOk(phases, live, waiting, receipts, started, stranded) && (c, false) !in phases
    ensures CallsOk(phases + {(c, false)}, live, waiting, receipts, started, stranded + {c})
  {
  }

  lemma CallsReceipt(phases: set<(CallId, bool)>, live: set<(CallId, bool)>, waiting: set<CallId>,
                     receipts: seq<CallId>, started: seq<CallId>, stranded: set<CallId>, c: CallId)
    requires CallsOk(phases, live, waiting, receipts, started, stranded) && c in waiting
    ensures c !in receipts && CallsOk(phases, live, waiting - {c}, receipts + [c], started, stranded)
  {
  }

  lemma CallsStart(phases: set<(CallId, bool)>, live: set<(CallId, bool)>, waiting: set<CallId>,
                   receipts: seq<CallId>, started: seq<CallId>, stranded: set<CallId>, c: CallId)
    requires CallsOk(phases, live, waiting, receipts, started, stranded) && c in waiting && c !in started
    ensures CallsOk(phases, live, waiting, receipts, started + [c], stranded)
  {
    assert (c, false) in live;
  }

  /** A session keeps its model, and its conversation for ever once it has one. */
  ghost predicate BindingKept(before: Binding, after: Binding) {
    && after.model == before.model
    && (before.Conversation? ==> after.Conversation? && after.conversation == before.conversation)
  }

  lemma BindingKeptReflexive(binding: Binding)
    ensures BindingKept(binding, binding)
  {
  }

  /** What can happen to a turn. */
  datatype TurnEvent =
    | ProgressArrives(p: Progress, correlated: bool, evidence: Evidence, chunks: seq<Chunk>)
    | ResponseArrives(r: Rpc)
    | CallbackArrives(c: CallId, name: ToolName, confirmation: bool, input: Fingerprint, conversation: ConversationId,
                      turn: NativeTurnId, wellFormed: bool, decoded: bool, allowed: bool, first: Evidence, second: Evidence)
    | EffectStarts(c: CallId, evidence: Evidence, open: bool)
    | EffectSettles(c: CallId, evidence: Evidence)
    | CallbackReplies(c: CallId, confirmation: bool)
    | CancelSignalled(dispatched: bool, open: bool)
    | CallbacksJoin

  /** What a turn has seen so far: what the read loop accepted; the evidence and the replies that came, and which
      of them was the first that did not fit; tool identities; invocations with a receipt, started ones and
      stranded ones; callbacks on record; the accepted end and response; overflow and cancellation. */
  datatype History = History(
    log: seq<Mark>, offered: seq<Evidence>, replies: seq<Reply>, tools: Tools, receipts: seq<CallId>,
    started: seq<CallId>, stranded: set<CallId>, admitted: seq<Admission>, ending: Option<Progress>, answer: Option<Rpc>,
    full: bool, cut: bool, overflow: bool, cancelRequested: bool)

  const NOTHING_SEEN := History([], [], [], map[], [], [], {}, [], None, None, false, false, false, false)

  predicate HasAnswer(log: seq<Mark>) {
    |log| > 0 && log[|log| - 1] == Answered
  }

  predicate HasEnded(log: seq<Mark>) {
    |log| > 0 && (log[|log| - 1] == Ended || log[|log| - 1] == Answered)
  }

  lemma LogTells(log: seq<Mark>, begun: bool, ended: bool, rpcEnded: bool)
    requires LogOk(log, begun, ended, rpcEnded)
    ensures (ended <==> HasEnded(log)) && (rpcEnded <==> HasAnswer(log))
  {
  }

  /** No callback is accepted any more. */
  predicate Shut(h: History) {
    HasEnded(h.log) || h.overflow || h.cancelRequested
  }

  /** Histories only grow, and what was once read stays as it was. An end, an answer, an overflow and a
      cancellation are never taken back: nothing starts after an overflow or a cancellation, no callback is
      accepted after any of them, nothing is observed after the end, and nothing is accepted after the answer. */
  ghost predicate Grew(h: History, k: History) {
    && h.log <= k.log && h.offered <= k.offered && h.replies <= k.replies && ToolsKept(h.tools, k.tools)
    && h.receipts <= k.receipts && h.started <= k.started && h.admitted <= k.admitted
    && (h.overflow ==> k.overflow) && (h.cancelRequested ==> k.cancelRequested)
    && (h.overflow || h.cancelRequested ==> k.started == h.started)
    && (Shut(h) ==> k.admitted == h.admitted)
    && (HasEnded(h.log) ==> k.replies == h.replies && k.tools == h.tools)
    && (HasEnded(h.log) ==> k.log == h.log || k.log == h.log + [Answered])
    && (HasAnswer(h.log) ==> k.log == h.log)
    && (h.ending.Some? ==> k.ending == h.ending) && (h.answer.Some? ==> k.answer == h.answer)
  }

  /** Nothing arrived. */
  ghost predicate NothingArrived(h: History, k: History) {
    k.log == h.log && k.replies == h.replies && k.tools == h.tools && k.admitted == h.admitted
  }

  lemma GrewIsReflexive(h: History)
    ensures Grew(h, h)
  {
  }

  lemma GrewAdmits(h: History, k: History)
    requires Grew(h, k)
    ensures h.admitted <= k.admitted && (Shut(h) ==> k.admitted == h.admitted)
  {
  }

  lemma GrewIsTransitive(h: History, k: History, l: History)
    requires Grew(h, k) && Grew(k, l)
    ensures Grew(h, l)
  {
  }

  /** Progress before the end: what it carries is observed, then it is marked. */
  lemma ProgressGrew(h: History, k: History)
    requires !HasEnded(h.log) && h.ending.None?
    requires k == h.(log := k.log, offered := k.offered, replies := k.replies, tools := k.tools, ending := k.ending,
                     overflow := k.overflow, full := k.full, cut := k.cut)
    requires h.log <= k.log && h.offered <= k.offered && h.replies <= k.replies
    requires ToolsKept(h.tools, k.tools) && (h.overflow ==> k.overflow)
    ensures Grew(h, k)
  {
  }

  lemma AnswerGrew(h: History, r: Rpc)
    requires HasEnded(h.log) && !HasAnswer(h.log) && h.answer.None?
    ensures Grew(h, h.(log := h.log + [Answered], answer := Some(r)))
  {
  }

  /** A callback that is put on record. */
  lemma CallbackGrew(h: History, k: History, a: Admission)
    requires !Shut(h)
    requires k == h.(admitted := h.admitted + [a], offered := k.offered, receipts := k.receipts, stranded := k.stranded,
                     overflow := k.overflow, full := k.full, tools := k.tools)
    requires h.offered <= k.offered && h.receipts <= k.receipts && ToolsKept(h.tools, k.tools)
    ensures Grew(h, k)
  {
  }

  /** An invocation's receipt, and the evidence of it. */
  lemma ReceiptGrew(h: History, k: History)
    requires h.offered <= k.offered && h.receipts <= k.receipts && (h.overflow ==> k.overflow)
    requires k == h.(offered := k.offered, receipts := k.receipts, overflow := k.overflow, full := k.full)
    ensures Grew(h, k)
  {
  }

  lemma StartGrew(h: History, c: CallId)
    requires !h.overflow && !h.cancelRequested
    ensures Grew(h, h.(started := h.started + [c]))
  {
  }

  lemma CancelGrew(h: History)
    ensures Grew(h, h.(cancelRequested := true))
  {
  }

  /** The session is bound from the begin on, and to what a result says. */
  ghost predicate BindingOk(binding: Binding, firstTurn: bool, begun: bool, ended: bool, rpcEnded: bool,
                            answer: Option<Rpc>, admitted: seq<Admission>)
  {
    && OfTheTurn(admitted, binding)
    && (!begun ==> |admitted| == 0)
    && (begun || ended ==> binding.Conversation?)
    && (firstTurn && !begun ==> binding.Allocated?)
    && (rpcEnded && answer.Some? && answer.value.RpcResult? ==>
          binding == Conversation(answer.value.model, answer.value.conversation, answer.value.turn))
  }

  lemma BindingAdmits(binding: Binding, firstTurn: bool, begun: bool, ended: bool, rpcEnded: bool, answer: Option<Rpc>,
                      admitted: seq<Admission>, a: Admission)
    requires BindingOk(binding, firstTurn, begun, ended, rpcEnded, answer, admitted) && begun
    requires binding.Conversation? && a.conversation == binding.conversation && a.turn == binding.turn
    ensures BindingOk(binding, firstTurn, begun, ended, rpcEnded, answer, admitted + [a])
  {
  }

  /** The reason and the error are those of the accepted end, but that of a response that is an error. */
  ghost predicate EndingOk(ended: bool, rpcEnded: bool, ending: Option<Progress>, answer: Option<Rpc>,
                           reason: Option<Reason>, error: Option<Reason>)
  {
    && (ended <==> ending.Some?) && (ended ==> ending.value.End?) && (rpcEnded <==> answer.Some?)
    && reason == (if ended then ending.value.reason else None)
    && error == (if rpcEnded && answer.value.RpcError? then Some(answer.value.error)
                 else if ended then ending.value.error else None)
  }

  class NativeSession {
    var binding: Binding
    var retired: bool

    constructor (model: ModelId)
      ensures binding == Allocated(model) && !retired
    {
      binding, retired := Allocated(model), false;
    }
  }

  /** `_Turn`, with the handlers that act on it. A handler that refuses what arrived raised a protocol
      error: `broken` is set, the read loop ends, the transport is revoked and the turn fails. */
  class NativeTurn {
    const session: NativeSession
    const eventLimit: nat
    const responseLimit: nat
    var begun: bool
    var ended: bool
    var rpcEnded: bool
    var cancelRequested: bool
    var cancelReason: Option<Reason>
    var nativeError: Option<Reason>
    var overflow: bool
    var eventBytes: nat
    var responseBytes: nat
    var response: seq<Reply>
    var events: seq<Evidence>
    var tools: Tools
    var effects: seq<CallId>
    var callbackPhases: set<(CallId, bool)>
    var callbackInputs: map<CallId, Fingerprint>
    var live: set<(CallId, bool)>      // callback tasks not yet joined
    var waiting: set<CallId>           // invocations whose work is not done
    var joined: bool                   // `settle_callbacks` has returned
    var broken: bool                   // a handler has raised
    var started: seq<CallId>           // invocations handed to the workspace

    ghost const firstTurn: bool
    ghost var seen: History

    ghost predicate RecordsOk()
      reads `events, `eventBytes, `overflow, `response, `responseBytes, `effects, `seen
    {
      && EvidenceOk(events, seen.offered, eventBytes, eventLimit, overflow, seen.full)
      && RepliesOk(response, seen.replies, responseBytes, responseLimit, overflow, seen.cut)
      && (overflow ==> seen.full || seen.cut)
      && EffectsOk(effects, seen.receipts, overflow)
      && seen.overflow == overflow
    }

    ghost predicate CallbacksOk()
      reads `callbackPhases, `callbackInputs, `live, `waiting, `started, `begun, `tools, `seen
    {
      && CallsOk(callbackPhases, live, waiting, seen.receipts, started, seen.stranded)
      && AdmittedOk(seen.admitted, callbackPhases, callbackInputs)
      && (callbackPhases != {} ==> begun)
      && seen.started == started && seen.tools == tools
    }

    /** What holds whether or not the turn was joined or a handler has raised. */
    ghost predicate Sound()
      reads `events, `eventBytes, `overflow, `response, `responseBytes, `effects, `seen, `begun, `ended, `rpcEnded,
            `cancelReason, `nativeError, `callbackPhases, `callbackInputs, `live, `waiting, `started,
            `tools, `cancelRequested, session`binding
    {
      && BindingOk(session.binding, firstTurn, begun, ended, rpcEnded, seen.answer, seen.admitted) && RecordsOk()
      && EndingOk(ended, rpcEnded, seen.ending, seen.answer, cancelReason, nativeError) && CallbacksOk()
      && LogOk(seen.log, begun, ended, rpcEnded)
      && seen.cancelRequested == cancelRequested
    }

    ghost predicate Valid()
      reads this, session`binding
    {
      && Sound()
      && (joined ==> ended && rpcEnded && live == {})
      && (seen.stranded != {} ==> broken)
    }

    constructor (session: NativeSession, eventLimit: nat, responseLimit: nat)
      ensures Valid() && this.session == session && firstTurn == session.binding.Allocated?
      ensures this.eventLimit == eventLimit && this.responseLimit == responseLimit
      ensures seen == NOTHING_SEEN
      ensures callbackPhases == {} && !begun && !ended && !rpcEnded && !joined && !broken
    {
      this.session, this.eventLimit, this.responseLimit := session, eventLimit, responseLimit;
      begun, ended, rpcEnded, cancelRequested, overflow, joined, broken := false, false, false, false, false, false, false;
      cancelReason, nativeError := None, None;
      eventBytes, responseBytes, response, events, effects := 0, 0, [], [], [];
      tools, callbackPhases, callbackInputs, live, waiting, started := map[], {}, map[], {}, {}, [];
      firstTurn := session.binding.Allocated?;
      seen := NOTHING_SEEN;
    }

    /** A handler raises. */
    method Break()
      requires Sound() && (joined ==> ended && rpcEnded && live == {})
      modifies `broken
      ensures Valid() && broken
    {
      hide EvidenceOk, RepliesOk, EffectsOk, CallsOk, AdmittedOk, LogOk, EndingOk, BindingOk;
      broken := true;
    }

    /** `_retain`: the first piece of evidence that does not fit closes the record. */
    method Retain(e: Evidence) returns (kept: bool)
      requires EvidenceOk(events, seen.offered, eventBytes, eventLimit, overflow, seen.full)
      modifies `events, `eventBytes, `overflow, `seen
      ensures EvidenceOk(events, seen.offered, eventBytes, eventLimit, overflow, seen.full)
      ensures seen == old(seen).(offered := old(seen.offered) + [e], overflow := overflow, full := seen.full)
      ensures kept <==> !old(overflow) && old(eventBytes) + e.size <= eventLimit
      ensures events == if kept then old(events) + [e] else old(events)
      ensures overflow == (old(overflow) || !kept) && seen.full == (old(seen.full) || (!old(overflow) && !kept))
    {
      seen := seen.(offered := seen.offered + [e], overflow := overflow || eventBytes + e.size > eventLimit,
                    full := seen.full || (!overflow && eventBytes + e.size > eventLimit));
      if overflow || eventBytes + e.size > eventLimit {
        overflow := true;
        return false;
      }
      ghost var before := events;
      events := events + [e];
      assert events[..|events| - 1] == before;
      eventBytes := eventBytes + e.size;
      return true;
    }

    /** The other records are untouched, but for the overflow that closes them, too. */
    method RetainRecord(e: Evidence) returns (kept: bool)
      requires RecordsOk()
      modifies `events, `eventBytes, `overflow, `seen
      ensures RecordsOk()
      ensures seen == old(seen).(offered := old(seen.offered) + [e], overflow := overflow, full := seen.full)
      ensures kept <==> !old(overflow) && old(eventBytes) + e.size <= eventLimit
      ensures overflow == (old(overflow) || !kept)
    {
      hide EvidenceOk;
      kept := Retain(e);
    }

    /** The reply of one chunk: the first that does not fit ends the response. */
    method ObserveReply(r: Reply)
      requires RepliesOk(response, seen.replies, responseBytes, responseLimit, overflow, seen.cut)
      modifies `response, `responseBytes, `overflow, `seen
      ensures RepliesOk(response, seen.replies, responseBytes, responseLimit, overflow, seen.cut)
      ensures seen == old(seen).(replies := old(seen.replies) + [r], overflow := overflow, cut := seen.cut)
      ensures seen.cut == (old(seen.cut) || (!old(overflow) && overflow))
      ensures overflow == (old(overflow) || old(responseBytes) + r.size > responseLimit)
      ensures response == if overflow then old(response) else old(response) + [r]
    {
      ghost var cut := seen.cut || (!overflow && responseBytes + r.size > responseLimit);
      if responseBytes + r.size > responseLimit {
        overflow := true;
      } else if !overflow {
        ghost var before := response;
        response := response + [r];
        assert response[..|response| - 1] == before;
        responseBytes := responseBytes + r.size;
      }
      seen := seen.(replies := seen.replies + [r], overflow := overflow, cut := cut);
    }

    /** `_observe_tool`: a tool call keeps its name and scope. */
    method ObserveTool(t: ToolCall) returns (ok: bool)
      modifies `tools, `seen
      ensures ok <==> (t.call in old(tools) ==> old(tools)[t.call] == t.identity)
      ensures tools == if ok then old(tools)[t.call := t.identity] else old(tools)
      ensures seen == old(seen).(tools := tools)
    {
      ok := t.call in tools ==> tools[t.call] == t.identity;
      if ok {
        tools := tools[t.call := t.identity];
      }
      seen := seen.(tools := tools);
    }

    /** The tool calls of one chunk. */
    method ObserveTools(calls: seq<ToolCall>) returns (ok: bool)
      modifies `tools, `seen
      ensures (tools, ok) == SeeTools(old(tools), calls)
      ensures seen == old(seen).(tools := tools)
    {
      seen := seen.(tools := tools);
      for i := 0 to |calls|
        invariant (tools, true) == SeeTools(old(tools), calls[..i])
        invariant seen == old(seen).(tools := tools)
      {
        assert calls[..i + 1][..|calls[..i + 1]| - 1] == calls[..i];
        ok := ObserveTool(calls[i]);
        if !ok {
          StuckTools(old(tools), calls, i + 1);
          return;
        }
      }
      assert calls[..|calls|] == calls;
      ok := true;
    }

    /** `_observe_report`. Overflow is set by a reply that does not fit, and by nothing else. */
    method ObserveReport(chunks: seq<Chunk>) returns (ok: bool)
      requires RepliesOk(response, seen.replies, responseBytes, responseLimit, overflow, seen.cut) && !overflow
      requires !seen.overflow
      requires seen.tools == tools
      modifies `response, `responseBytes, `overflow, `tools, `seen
      ensures RepliesOk(response, seen.replies, responseBytes, responseLimit, overflow, seen.cut)
      ensures var reading := ReadChunks(old(tools), chunks);
              && ok == reading.sound && tools == reading.tools
              && seen == old(seen).(replies := old(seen.replies) + reading.replies, tools := reading.tools,
                                    overflow := overflow, cut := seen.cut)
      ensures overflow == seen.cut
    {
      assert !seen.cut;
      hide RepliesOk, ReadChunk;
      ghost var reading := Reading(tools, [], true);
      for i := 0 to |chunks|
        invariant RepliesOk(response, seen.replies, responseBytes, responseLimit, overflow, seen.cut)
        invariant overflow == seen.cut
        invariant ReadChunks(old(tools), chunks[..i]) == reading && reading.sound
        invariant seen == old(seen).(replies := old(seen.replies) + reading.replies, tools := reading.tools,
                                    overflow := overflow, cut := seen.cut)
        invariant tools == reading.tools
      {
        assert chunks[..i + 1][..|chunks[..i + 1]| - 1] == chunks[..i];
        ok := ObserveChunk(chunks[i], old(seen), reading);
        reading := ReadChunk(reading, chunks[i]);
        if !ok {
          StuckReading(old(tools), chunks, i + 1);
          return;
        }
      }
      assert chunks[..|chunks|] == chunks;
      ok := true;
    }

    method ObserveChunk(chunk: Chunk, ghost start: History, ghost before: Reading) returns (ok: bool)
      requires RepliesOk(response, seen.replies, responseBytes, responseLimit, overflow, seen.cut)
      requires overflow == seen.cut
      requires seen == start.(replies := start.replies + before.replies, tools := before.tools,
                              overflow := overflow, cut := seen.cut)
      requires tools == before.tools
      modifies `response, `responseBytes, `overflow, `tools, `seen
      ensures RepliesOk(response, seen.replies, responseBytes, responseLimit, overflow, seen.cut)
      ensures overflow == seen.cut
      ensures var after := ReadChunk(before, chunk);
              && seen == start.(replies := start.replies + after.replies, tools := after.tools,
                              overflow := overflow, cut := seen.cut)
              && tools == after.tools && ok == after.sound
    {
      hide RepliesOk, SeeTools;
      if chunk.reply.Some? {
        ObserveReply(chunk.reply.value);
        assert seen.replies == start.replies + (before.replies + [chunk.reply.value]);
      }
      ok := ObserveTools(chunk.tools);
      ok := ok && !chunk.malformed;
    }

    predicate Identified(conversation: ConversationId, turn: NativeTurnId)
      reads session`binding
    {
      session.binding.Conversation? && session.binding.conversation == conversation && session.binding.turn == turn
    }

    /** What is on record after a progress value was heard; `now` says what the budgets made of it. */
    ghost function Heard(h: History, tooBig: bool, evidence: Evidence, chunks: seq<Chunk>, now: History): History {
      var reading := ReadChunks(h.tools, chunks);
      h.(offered := h.offered + [evidence], replies := h.replies + reading.replies,
         tools := if tooBig then h.tools else reading.tools, overflow := now.overflow, full := now.full, cut := now.cut)
    }

    /** The budget for evidence was exceeded before, or is by this piece. */
    predicate TooBig(evidence: Evidence)
      reads `overflow, `eventBytes
    {
      overflow || eventBytes + evidence.size > eventLimit
    }

    /** `_retain` and `_observe_report` of one progress value. */
    method Observe(evidence: Evidence, chunks: seq<Chunk>) returns (ok: bool)
      requires RecordsOk() && seen.tools == tools
      modifies `events, `eventBytes, `overflow, `response, `responseBytes, `tools, `seen
      ensures RecordsOk() && (old(overflow) ==> overflow) && tools == seen.tools
      ensures seen == Heard(old(seen), old(TooBig(evidence)), evidence, chunks, seen)
      ensures ok <==> old(TooBig(evidence)) || ReadChunks(old(tools), chunks).sound
      ensures unchanged(`begun, `ended, `rpcEnded, `cancelReason, `nativeError, `callbackPhases, `callbackInputs)
      ensures unchanged(`live, `waiting, `started, `cancelRequested, session`binding)
    {
      hide ReadChunks;
      var _ := RetainRecord(evidence);
      if overflow {
        ghost var more := ReadChunks(tools, chunks).replies;
        assert seen.cut ==> (seen.replies + more)[|response|] == seen.replies[|response|];
        seen := seen.(replies := seen.replies + more);
        return true;
      }
      ok := ObserveReport(chunks);
    }

    /** A begin binds the session: a first turn creates its conversation, a later one keeps it. */
    method OnBegin(conversation: ConversationId, turn: NativeTurnId) returns (ok: bool)
      requires BindingOk(session.binding, firstTurn, begun, ended, rpcEnded, seen.answer, seen.admitted)
      requires LogOk(seen.log, begun, ended, rpcEnded) && !ended && !rpcEnded
      modifies session`binding, `begun, `seen
      ensures BindingOk(session.binding, firstTurn, begun, ended, rpcEnded, seen.answer, seen.admitted)
      ensures LogOk(seen.log, begun, ended, rpcEnded) && BindingKept(old(session.binding), session.binding)
      ensures ok <==> !old(begun) && (old(session.binding).Conversation? ==>
                        old(session.binding).conversation == conversation && old(session.binding).turn != turn)
      ensures ok ==> begun && session.binding == Conversation(old(session.binding).model, conversation, turn)
      ensures !ok ==> begun == old(begun) && session.binding == old(session.binding)
      ensures seen == old(seen).(log := if ok then old(seen.log) + [Began] else old(seen.log))
    {
      if !begun { LogGrows(seen.log, begun, ended, Began); }
      hide LogOk;
      var prior := session.binding;
      if begun || (prior.Conversation? && (prior.conversation != conversation || prior.turn == turn)) { return false; }
      session.binding := Conversation(prior.model, conversation, turn);
      begun, seen := true, seen.(log := seen.log + [Began]);
      return true;
    }

    /** A begin that may bind the session, or any other value under the identity it is bound to. */
    predicate MayIdentify(p: Progress)
      reads `begun, session`binding
    {
      if p.Begin? then
        !begun && (session.binding.Conversation? ==>
                     session.binding.conversation == p.conversation && session.binding.turn != p.turn)
      else Identified(p.conversation, p.turn)
    }

    /** The binding half of a begin, or the identity check of any other value. */
    method Identify(p: Progress) returns (ok: bool)
      requires Sound() && !ended && !rpcEnded
      modifies session`binding, `begun, `seen
      ensures Sound() && BindingKept(old(session.binding), session.binding)
      ensures seen == old(seen).(log := if ok && p.Begin? then old(seen.log) + [Began] else old(seen.log))
      ensures ok ==> Identified(p.conversation, p.turn)
      ensures !p.Begin? ==> session.binding == old(session.binding)
      ensures ok <==> old(MayIdentify(p))
      ensures unchanged(`ended, `rpcEnded, `overflow, `eventBytes, `tools)
    {
      hide EvidenceOk, RepliesOk, EffectsOk, CallsOk, LogOk, AdmittedOk, EndingOk;
      if p.Begin? {
        ok := OnBegin(p.conversation, p.turn);
      } else {
        ok := Identified(p.conversation, p.turn);
      }
    }

    /** The end and the reports are marked. */
    method Accept(p: Progress)
      requires LogOk(seen.log, begun, ended, rpcEnded)
      requires EndingOk(ended, rpcEnded, seen.ending, seen.answer, cancelReason, nativeError) && !ended && !rpcEnded
      modifies `seen, `ended, `cancelReason, `nativeError
      ensures LogOk(seen.log, begun, ended, rpcEnded)
      ensures EndingOk(ended, rpcEnded, seen.ending, seen.answer, cancelReason, nativeError) && ended == p.End?
      ensures seen == old(seen).(log := old(seen.log) + (if p.Begin? then [] else [if p.End? then Ended else Reported]),
                                 ending := if p.End? then Some(p) else old(seen.ending))
      ensures unchanged(`begun, `rpcEnded, `callbackPhases, `callbackInputs, `live)
      ensures unchanged(`waiting, `started, `cancelRequested, session`binding)
    {
      if p.Report? {
        LogGrows(seen.log, begun, ended, Reported);
        seen := seen.(log := seen.log + [Reported]);
      } else if p.End? {
        LogGrows(seen.log, begun, ended, Ended);
        ended, seen := true, seen.(log := seen.log + [Ended], ending := Some(p));
        if p.reason.Some? { cancelReason := p.reason; }
        if p.error.Some? { nativeError := p.error; }
      }
      assert p.Begin? ==> seen.log + [] == seen.log;
    }

    /** An identified progress value is retained, observed and, if sound, accepted. */
    method Take(p: Progress, evidence: Evidence, chunks: seq<Chunk>) returns (ok: bool)
      requires Sound() && !ended && !rpcEnded && session.binding.Conversation?
      modifies `events, `eventBytes, `overflow, `response, `responseBytes, `tools, `seen,
               `ended, `cancelReason, `nativeError
      ensures Sound() && (old(overflow) ==> overflow) && seen.overflow == overflow
      ensures ok <==> old(TooBig(evidence)) || ReadChunks(old(tools), chunks).sound
      ensures seen == Heard(old(seen), old(TooBig(evidence)), evidence, chunks, seen)
                      .(log := old(seen.log) + (if p.Begin? || !ok then [] else [if p.End? then Ended else Reported]),
                        ending := if ok && p.End? then Some(p) else old(seen.ending))
      ensures ended == (ok && p.End?)
    {
      hide EvidenceOk, RepliesOk, EffectsOk, CallsOk, LogOk, AdmittedOk, EndingOk, ReadChunks;
      ok := Observe(evidence, chunks);
      if ok { Accept(p); }
      assert seen.log + [] == seen.log;
    }

    /** `_notification` for `$/progress`. A value is heard when it is correlated, comes before the end and has the
        turn's identity; it is accepted when, besides, nothing in it is malformed or changes a tool's identity. */
    method OnProgress(p: Progress, correlated: bool, evidence: Evidence, chunks: seq<Chunk>) returns (ok: bool)
      requires Valid() && !broken
      modifies `events, `eventBytes, `overflow, `response, `responseBytes, `tools, `seen,
               `begun, `ended, `cancelReason, `nativeError, `broken, session`binding
      ensures Grew(old(seen), seen)
      ensures Valid() && BindingKept(old(session.binding), session.binding)
      ensures var prior, reading := old(session.binding), ReadChunks(old(tools), chunks);
              var tooBig := old(overflow) || old(eventBytes) + evidence.size > eventLimit;
              var heard := correlated && !old(ended) && !old(rpcEnded)
                           && (if p.Begin? then
                                 !old(begun) && (prior.Conversation? ==> prior.conversation == p.conversation && prior.turn != p.turn)
                               else prior.Conversation? && prior.conversation == p.conversation && prior.turn == p.turn);
              && (ok <==> heard && (tooBig || reading.sound))
              && (!heard ==> seen == old(seen))
              && (heard ==>
                    && seen.offered == old(seen.offered) + [evidence]
                    && seen.replies == old(seen.replies) + reading.replies
                    && seen.tools == (if tooBig then old(tools) else reading.tools)
                    && seen.log == old(seen.log) + (if p.Begin? then [Began] else if !ok then []
                                                    else if p.End? then [Ended] else [Reported])
                    && seen.ending == (if ok && p.End? then Some(p) else old(seen.ending))
                    && seen == old(seen).(offered := seen.offered, replies := seen.replies, tools := seen.tools, log := seen.log,
                                          ending := seen.ending, overflow := seen.overflow, full := seen.full, cut := seen.cut))
      ensures broken == !ok
      ensures ok ==> session.binding == Conversation(old(session.binding).model, p.conversation, p.turn) && ended == p.End?
      ensures ok && p.End? ==> cancelReason == p.reason && nativeError == p.error
      ensures !p.Begin? ==> session.binding == old(session.binding)
      ensures !ok ==> ended == old(ended)
    {
      NowHearing();
      hide Grew, Valid, Sound, ReadChunks, BindingKept, TooBig, Heard, MarksOf, MayIdentify;
      BindingKeptReflexive(session.binding);
      if !correlated || rpcEnded || ended {
        TurnAway();
        return false;
      }
      HearingRules(p, evidence, chunks);
      ok := HearOrRaise(p, evidence, chunks);
    }

    lemma NowHearing()
      requires Valid()
      ensures seen.tools == tools
    {
    }

    /** A value that is heard but not accepted raises. */
    method HearOrRaise(p: Progress, evidence: Evidence, chunks: seq<Chunk>) returns (ok: bool)
      requires Valid() && !broken && !ended && !rpcEnded
      modifies `events, `eventBytes, `overflow, `response, `responseBytes, `tools, `seen,
               `begun, `ended, `cancelReason, `nativeError, `broken, session`binding
      ensures Grew(old(seen), seen)
      ensures Valid() && BindingKept(old(session.binding), session.binding)
      ensures ok <==> old(MayIdentify(p)) && (old(TooBig(evidence)) || ReadChunks(old(tools), chunks).sound)
      ensures if old(MayIdentify(p)) then
                seen == Heard(old(seen), old(TooBig(evidence)), evidence, chunks, seen)
                        .(log := old(seen.log) + MarksOf(p, ok),
                          ending := if ok && p.End? then Some(p) else old(seen.ending))
              else seen == old(seen)
      ensures broken == !ok
      ensures ok ==> session.binding == Conversation(old(session.binding).model, p.conversation, p.turn)
      ensures !p.Begin? ==> session.binding == old(session.binding)
      ensures ended == (ok && p.End?) && (ended ==> cancelReason == p.reason && nativeError == p.error)
    {
      EndingNow();
      hide Grew, Sound, ReadChunks, HasEnded, TooBig, Heard, MarksOf, MayIdentify;
      ok := Hear(p, evidence, chunks);
      if !ok {
        Break();
      }
    }

    lemma HearingRules(p: Progress, evidence: Evidence, chunks: seq<Chunk>)
      ensures TooBig(evidence) <==> overflow || eventBytes + evidence.size > eventLimit
      ensures MayIdentify(p) <==>
                var prior := session.binding;
                if p.Begin? then
                  !begun && (prior.Conversation? ==> prior.conversation == p.conversation && prior.turn != p.turn)
                else prior.Conversation? && prior.conversation == p.conversation && prior.turn == p.turn
      ensures forall h, tooBig, now {:trigger Heard(h, tooBig, evidence, chunks, now)} ::
                Heard(h, tooBig, evidence, chunks, now)
                == h.(offered := h.offered + [evidence], replies := h.replies + ReadChunks(h.tools, chunks).replies,
                      tools := if tooBig then h.tools else ReadChunks(h.tools, chunks).tools, overflow := now.overflow,
                      full := now.full, cut := now.cut)
      ensures forall ok {:trigger MarksOf(p, ok)} :: MarksOf(p, ok) == if p.Begin? then [Began] else if !ok then []
                                                                      else if p.End? then [Ended] else [Reported]
    {
      hide ReadChunks;
    }

    /** A begin is marked when it binds the session, the rest when it is accepted. */
    function MarksOf(p: Progress, ok: bool): seq<Mark> {
      match p
      case Begin(_, _) => [Began]
      case Report(_, _) => if ok then [Reported] else []
      case End(_, _, _, _) => if ok then [Ended] else []
    }

    /** A correlated progress value before the end: identified, then retained, observed and accepted. */
    method Hear(p: Progress, evidence: Evidence, chunks: seq<Chunk>) returns (ok: bool)
      requires Sound() && !ended && !rpcEnded && !HasEnded(seen.log) && seen.ending.None?
      modifies `events, `eventBytes, `overflow, `response, `responseBytes, `tools, `seen,
               `begun, `ended, `cancelReason, `nativeError, session`binding
      ensures Grew(old(seen), seen)
      ensures Sound() && BindingKept(old(session.binding), session.binding)
      ensures ok <==> old(MayIdentify(p)) && (old(TooBig(evidence)) || ReadChunks(old(tools), chunks).sound)
      ensures if old(MayIdentify(p)) then
                seen == Heard(old(seen), old(TooBig(evidence)), evidence, chunks, seen)
                        .(log := old(seen.log) + MarksOf(p, ok),
                          ending := if ok && p.End? then Some(p) else old(seen.ending))
              else seen == old(seen)
      ensures ok ==> Identified(p.conversation, p.turn)
      ensures !p.Begin? ==> session.binding == old(session.binding)
      ensures ended == (ok && p.End?) && (ended ==> cancelReason == p.reason && nativeError == p.error)
    {
      ToolsNow();
      hide Sound, ReadChunks, Grew, HasEnded, BindingKept, Heard, MarksOf;
      ghost var was := seen;
      GrewIsReflexive(was);
      ok := Identify(p);
      EndingNow();
      if ok {
        ghost var marked, tooBig := seen, TooBig(evidence);
        ok := Take(p, evidence, chunks);
        HeardMarked(was, marked, p, ok, tooBig, evidence, chunks, seen);
        HeardGrew(was, p, ok, tooBig, evidence, chunks, seen);
        EndingNow();
      }
    }

    /** A begin was marked before the value was retained and observed, the rest after it. */
    lemma HeardMarked(h: History, marked: History, p: Progress, ok: bool, tooBig: bool, evidence: Evidence,
                      chunks: seq<Chunk>, now: History)
      requires marked == h.(log := if p.Begin? then h.log + [Began] else h.log)
      ensures Heard(marked, tooBig, evidence, chunks, now)
                .(log := marked.log + (if p.Begin? || !ok then [] else [if p.End? then Ended else Reported]),
                  ending := if ok && p.End? then Some(p) else marked.ending)
              == Heard(h, tooBig, evidence, chunks, now)
                   .(log := h.log + MarksOf(p, ok), ending := if ok && p.End? then Some(p) else h.ending)
    {
      hide ReadChunks;
      assert marked.log + [] == marked.log && h.log + [] == h.log;
    }

    lemma HeardGrew(h: History, p: Progress, ok: bool, tooBig: bool, evidence: Evidence, chunks: seq<Chunk>, now: History)
      requires !HasEnded(h.log) && h.ending.None? && (h.overflow ==> now.overflow)
      ensures Grew(h, Heard(h, tooBig, evidence, chunks, now)
                        .(log := h.log + MarksOf(p, ok), ending := if ok && p.End? then Some(p) else h.ending))
    {
      hide ReadChunks, Grew, ToolsKept;
      ReadingKeepsTools(h.tools, chunks);
      ToolsKeptReflexive(h.tools);
      ProgressGrew(h, Heard(h, tooBig, evidence, chunks, now)
                        .(log := h.log + MarksOf(p, ok), ending := if ok && p.End? then Some(p) else h.ending));
    }

    lemma ToolsNow()
      requires Sound()
      ensures seen.tools == tools && seen.overflow == overflow && seen.cancelRequested == cancelRequested
    {
    }

    lemma EndingNow()
      requires Sound()
      ensures (begun || ended ==> session.binding.Conversation?) && (ended <==> seen.ending.Some?)
      ensures ended ==> cancelReason == seen.ending.value.reason && (!rpcEnded ==> nativeError == seen.ending.value.error)
      ensures (ended <==> HasEnded(seen.log)) && (rpcEnded <==> HasAnswer(seen.log))
      ensures (rpcEnded <==> seen.answer.Some?)
    {
      LogTells(seen.log, begun, ended, rpcEnded);
    }

    /** `_terminal_rpc`: at most once, and only after terminal progress. */
    method OnTerminalRpc(r: Rpc) returns (ok: bool)
      requires Valid() && !broken
      modifies `rpcEnded, `seen, `nativeError, `broken
      ensures Grew(old(seen), seen)
      ensures Valid()
      ensures ok <==> old(ended) && !old(rpcEnded)
                      && (r.RpcResult? ==> session.binding == Conversation(r.model, r.conversation, r.turn))
      ensures ok ==> rpcEnded && seen == old(seen).(log := old(seen.log) + [Answered], answer := Some(r))
      ensures !ok ==> rpcEnded == old(rpcEnded) && nativeError == old(nativeError) && seen == old(seen)
      ensures broken == !ok
    {
      EndingNow();
      hide Grew, Sound, HasEnded, HasAnswer;
      ok := !rpcEnded && ended
            && (r.RpcResult? ==> Identified(r.conversation, r.turn) && session.binding.model == r.model);
      if ok {
        AnswerGrew(seen, r);
        TakeAnswer(r);
      } else {
        GrewIsReflexive(seen);
        Break();
      }
    }

    method TakeAnswer(r: Rpc)
      requires Sound() && ended && !rpcEnded
      requires r.RpcResult? ==> session.binding == Conversation(r.model, r.conversation, r.turn)
      modifies `rpcEnded, `seen, `nativeError
      ensures Sound() && rpcEnded && seen == old(seen).(log := old(seen.log) + [Answered], answer := Some(r))
    {
      hide EvidenceOk, RepliesOk, EffectsOk, CallsOk, LogOk, AdmittedOk;
      LogGrows(seen.log, begun, ended, Answered);
      if r.RpcError? { nativeError := Some(r.error); }
      rpcEnded, seen := true, seen.(log := seen.log + [Answered], answer := Some(r));
    }

    /** A retained invocation whose tool was reported under another name, or as the server's own. */
    predicate Mismatched(c: CallId, name: ToolName, confirmation: bool, first: Evidence)
      reads `overflow, `eventBytes, `tools
    {
      !confirmation && !TooBig(first) && c in tools && tools[c] != ToolIdentity(name, BridgeTool)
    }

    /** `_callback` for the two tool methods. `decoded`: the arguments form an operation; `allowed`: the policy
        allows it; `accepted`: the answer to a confirmation is yes. A callback is put on record inside an
        undisturbed turn, under its identity, once in its phase, and with the input that its call had before. */
    method OnCallback(c: CallId, name: ToolName, confirmation: bool, input: Fingerprint,
                      conversation: ConversationId, turn: NativeTurnId, wellFormed: bool, decoded: bool, allowed: bool,
                      first: Evidence, second: Evidence) returns (verdict: Verdict, accepted: bool)
      requires Valid() && !broken
      modifies `callbackInputs, `callbackPhases, `live, `waiting, `broken, `tools,
               `events, `eventBytes, `overflow, `effects, `seen
      ensures Grew(old(seen), seen)
      ensures Valid()
      ensures !verdict.TurnedAway? <==>
                && old(begun) && !old(ended) && !old(rpcEnded) && !old(overflow) && !old(cancelRequested)
                && session.binding.Conversation?
                && session.binding.conversation == conversation && session.binding.turn == turn
                && wellFormed && (c, confirmation) !in old(callbackPhases)
                && (c in old(callbackInputs) ==> old(callbackInputs)[c] == input)
      ensures verdict.Stranded? <==>
                && !verdict.TurnedAway? && !confirmation && old(eventBytes) + first.size <= eventLimit
                && c in old(tools) && old(tools)[c] != ToolIdentity(name, BridgeTool)
      ensures accepted <==>
                verdict.Taken? && confirmation && decoded && allowed && old(eventBytes) + second.size <= eventLimit
      ensures verdict.TurnedAway? ==> unchanged(`seen, `callbackPhases, `callbackInputs, `waiting, `tools, `events)
      ensures !verdict.TurnedAway? ==>
                && seen.admitted == old(seen.admitted) + [Admission(c, confirmation, input, conversation, turn)]
                && seen.offered == old(seen.offered) + (if confirmation then [second]
                                                        else if decoded || verdict.Stranded? then [first] else [first, second])
                && seen.receipts == old(seen.receipts) + (if verdict.Taken? && !confirmation && !decoded then [c] else [])
                && seen.stranded == old(seen.stranded) + (if verdict.Stranded? then {c} else {})
                && seen == old(seen).(admitted := seen.admitted, offered := seen.offered, receipts := seen.receipts,
                                      stranded := seen.stranded, overflow := overflow, full := seen.full, tools := tools)
                && callbackPhases == old(callbackPhases) + {(c, confirmation)}
                && callbackInputs == old(callbackInputs)[c := input]
                && waiting == if verdict.Taken? && !confirmation && decoded then old(waiting) + {c} else old(waiting)
      ensures broken == !verdict.Taken?
    {
      NotShut();
      hide Valid, Grew, Recorded, Shut;
      if !begun || ended || rpcEnded || overflow || cancelRequested || !Identified(conversation, turn)
         || !wellFormed || (c, confirmation) in callbackPhases || (c in callbackInputs && callbackInputs[c] != input)
      {
        TurnAway();
        return TurnedAway, false;
      }
      RecordedForm(Admission(c, confirmation, input, conversation, turn), decoded, first, second);
      verdict, accepted := RecordCallback(c, name, confirmation, input, conversation, turn, decoded, allowed, first, second);
    }

    lemma RecordedForm(a: Admission, decoded: bool, first: Evidence, second: Evidence)
      ensures forall h, verdict {:trigger Recorded(h, a, verdict, decoded, first, second)} ::
                Recorded(h, a, verdict, decoded, first, second)
                == h.(admitted := h.admitted + [a],
                      offered := h.offered + (if verdict.Stranded? then [first]
                                              else if a.confirmation then [second]
                                              else if decoded then [first] else [first, second]),
                      receipts := h.receipts + (if verdict.Taken? && !a.confirmation && !decoded then [a.call] else []),
                      stranded := h.stranded + (if verdict.Stranded? then {a.call} else {}))
    {
      assert forall h: seq<CallId> :: h + [] == h;
      assert forall h: set<CallId> :: h + {} == h;
    }

    lemma NotShut()
      requires Valid()
      ensures !ended && !overflow && !cancelRequested ==> !Shut(seen)
    {
      LogTells(seen.log, begun, ended, rpcEnded);
    }

    method TurnAway()
      requires Valid()
      modifies `broken
      ensures Valid() && broken && Grew(seen, seen)
    {
      hide Sound, Grew;
      GrewIsReflexive(seen);
      Break();
    }

    /** A callback that may be put on record is, and a stranded one raises afterwards. */
    method RecordCallback(c: CallId, name: ToolName, confirmation: bool, input: Fingerprint, conversation: ConversationId,
                          turn: NativeTurnId, decoded: bool, allowed: bool, first: Evidence, second: Evidence)
      returns (verdict: Verdict, accepted: bool)
      requires Valid() && !broken && begun && !ended && !overflow && !Shut(seen) && Identified(conversation, turn)
      requires (c, confirmation) !in callbackPhases && (c in callbackInputs ==> callbackInputs[c] == input)
      modifies `callbackInputs, `callbackPhases, `live, `waiting, `broken, `tools,
               `events, `eventBytes, `overflow, `effects, `seen
      ensures Valid() && broken == !verdict.Taken?
      ensures Grew(old(seen), seen)
      ensures !verdict.TurnedAway?
      ensures verdict.Stranded? <==>
                && !confirmation && old(eventBytes) + first.size <= eventLimit
                && c in old(tools) && old(tools)[c] != ToolIdentity(name, BridgeTool)
      ensures accepted <==> confirmation && decoded && allowed && old(eventBytes) + second.size <= eventLimit
      ensures seen == Recorded(old(seen), Admission(c, confirmation, input, conversation, turn), verdict, decoded,
                               first, second)
                      .(overflow := overflow, full := seen.full, tools := tools)
      ensures callbackPhases == old(callbackPhases) + {(c, confirmation)}
      ensures callbackInputs == old(callbackInputs)[c := input]
      ensures waiting == if verdict.Taken? && !confirmation && decoded then old(waiting) + {c} else old(waiting)
    {
      hide Sound, Grew, Recorded, Shut;
      verdict, accepted := TakeCallback(c, name, confirmation, input, conversation, turn, decoded, allowed, first, second);
      if verdict.Stranded? {
        Break();
      }
    }

    lemma OfferedKeeps(h: History, c: CallId, confirmation: bool, decoded: bool, first: Evidence, second: Evidence)
      ensures forall verdict {:trigger Offered(h, c, confirmation, verdict, decoded, first, second)} ::
                var k := Offered(h, c, confirmation, verdict, decoded, first, second);
                (verdict.Taken? ==> k.stranded == h.stranded) && k.log == h.log && k.ending == h.ending
                && k.answer == h.answer && k.admitted == h.admitted && k.started == h.started
                && k.cancelRequested == h.cancelRequested
    {
    }

    lemma RecordedGrew(h: History, k: History, a: Admission, verdict: Verdict, decoded: bool, first: Evidence, second: Evidence)
      requires !Shut(h) && ToolsKept(h.tools, k.tools)
      requires k == Offered(h, a.call, a.confirmation, verdict, decoded, first, second)
                    .(overflow := k.overflow, full := k.full, tools := k.tools)
      ensures var recorded := k.(admitted := k.admitted + [a]);
        && Grew(h, recorded)
        && recorded == Recorded(h, a, verdict, decoded, first, second)
                       .(overflow := k.overflow, full := k.full, tools := k.tools)
    {
      CallbackGrew(h, k.(admitted := k.admitted + [a]), a);
    }

    /** What a callback adds to the record: the evidence it offers and, if it forms no operation, its receipt. */
    ghost function Recorded(h: History, a: Admission, verdict: Verdict, decoded: bool, first: Evidence,
                            second: Evidence): History
    {
      Offered(h, a.call, a.confirmation, verdict, decoded, first, second).(admitted := h.admitted + [a])
    }

    ghost function Offered(h: History, c: CallId, confirmation: bool, verdict: Verdict, decoded: bool,
                           first: Evidence, second: Evidence): History
    {
      h.(offered := h.offered + (if verdict.Stranded? then [first]
                                 else CallbackEvidence(confirmation, decoded, first, second)),
         receipts := if verdict.Taken? && !confirmation && !decoded then h.receipts + [c] else h.receipts,
         stranded := if verdict.Stranded? then h.stranded + {c} else h.stranded)
    }

    method TakeCallback(c: CallId, name: ToolName, confirmation: bool, input: Fingerprint, conversation: ConversationId,
                        turn: NativeTurnId, decoded: bool, allowed: bool, first: Evidence, second: Evidence)
      returns (verdict: Verdict, accepted: bool)
      requires Sound() && begun && !overflow && !Shut(seen) && Identified(conversation, turn)
      requires (c, confirmation) !in callbackPhases && (c in callbackInputs ==> callbackInputs[c] == input)
      modifies `callbackInputs, `callbackPhases, `live, `waiting, `tools,
               `events, `eventBytes, `overflow, `effects, `seen
      ensures Sound()
      ensures Grew(old(seen), seen)
      ensures !verdict.TurnedAway?
      ensures verdict.Stranded? <==>
                && !confirmation && old(eventBytes) + first.size <= eventLimit
                && c in old(tools) && old(tools)[c] != ToolIdentity(name, BridgeTool)
      ensures accepted <==> confirmation && decoded && allowed && old(eventBytes) + second.size <= eventLimit
      ensures verdict.Taken? ==> seen.stranded == old(seen.stranded)
      ensures seen == Recorded(old(seen), Admission(c, confirmation, input, conversation, turn), verdict, decoded,
                               first, second)
                      .(overflow := overflow, full := seen.full, tools := tools)
      ensures callbackPhases == old(callbackPhases) + {(c, confirmation)}
      ensures callbackInputs == old(callbackInputs)[c := input]
      ensures waiting == if verdict.Taken? && !confirmation && decoded then old(waiting) + {c} else old(waiting)
    {
      hide EvidenceOk, RepliesOk, EffectsOk, CallsOk, AdmittedOk, LogOk, EndingOk, BindingOk;
      hide Grew, ToolsKept, Shut, Offered, Recorded, Sound, RecordsOk;
      Parts();
      ghost var was, a := seen, Admission(c, confirmation, input, conversation, turn);
      OfferedKeeps(was, c, confirmation, decoded, first, second);
      AdmittedGrows(seen.admitted, callbackPhases, callbackInputs, a);
      BindingAdmits(session.binding, firstTurn, begun, ended, rpcEnded, seen.answer, seen.admitted, a);
      var kept;
      verdict, kept := AdmitCallback(c, name, confirmation, decoded, first, second);
      accepted := confirmation && decoded && allowed && kept;
      RecordedGrew(was, seen, a, verdict, decoded, first, second);
      NoteAdmission(c, input, a);
    }

    lemma Parts()
      requires Sound()
      ensures BindingOk(session.binding, firstTurn, begun, ended, rpcEnded, seen.answer, seen.admitted) && RecordsOk()
      ensures EndingOk(ended, rpcEnded, seen.ending, seen.answer, cancelReason, nativeError)
      ensures CallsOk(callbackPhases, live, waiting, seen.receipts, started, seen.stranded)
      ensures AdmittedOk(seen.admitted, callbackPhases, callbackInputs) && (callbackPhases != {} ==> begun)
      ensures seen.started == started && seen.tools == tools && LogOk(seen.log, begun, ended, rpcEnded)
      ensures seen.cancelRequested == cancelRequested
    {
    }

    /** The input that the call's other phase must have, and the callback itself. */
    method NoteAdmission(c: CallId, input: Fingerprint, ghost a: Admission)
      requires BindingOk(session.binding, firstTurn, begun, ended, rpcEnded, seen.answer, seen.admitted + [a])
      requires RecordsOk() && EndingOk(ended, rpcEnded, seen.ending, seen.answer, cancelReason, nativeError)
      requires CallsOk(callbackPhases, live, waiting, seen.receipts, started, seen.stranded)
      requires AdmittedOk(seen.admitted + [a], callbackPhases, callbackInputs[c := input]) && begun
      requires seen.started == started && seen.tools == tools && LogOk(seen.log, begun, ended, rpcEnded)
      requires seen.cancelRequested == cancelRequested
      modifies `callbackInputs, `seen
      ensures Sound() && callbackInputs == old(callbackInputs)[c := input]
      ensures seen == old(seen).(admitted := old(seen.admitted) + [a])
    {
      hide EvidenceOk, RepliesOk, EffectsOk, CallsOk, AdmittedOk, LogOk, EndingOk, BindingOk;
      callbackInputs := callbackInputs[c := input];
      seen := seen.(admitted := seen.admitted + [a]);
    }

    method AdmitCallback(c: CallId, name: ToolName, confirmation: bool, decoded: bool, first: Evidence, second: Evidence)
      returns (verdict: Verdict, kept: bool)
      requires RecordsOk() && CallsOk(callbackPhases, live, waiting, seen.receipts, started, seen.stranded)
      requires (c, confirmation) !in callbackPhases && !overflow && seen.tools == tools
      modifies `callbackPhases, `live, `waiting, `tools,
               `events, `eventBytes, `overflow, `effects, `seen
      ensures RecordsOk() && CallsOk(callbackPhases, live, waiting, seen.receipts, started, seen.stranded)
      ensures verdict == if old(Mismatched(c, name, confirmation, first)) then Stranded else Taken
      ensures confirmation ==> (kept <==> !old(TooBig(second)))
      ensures callbackPhases == old(callbackPhases) + {(c, confirmation)}
      ensures seen == Offered(old(seen), c, confirmation, verdict, decoded, first, second)
                      .(overflow := overflow, full := seen.full, tools := tools)
      ensures waiting == if verdict.Taken? && !confirmation && decoded then old(waiting) + {c} else old(waiting)
      ensures ToolsKept(old(tools), tools)
      ensures unchanged(`begun, `ended, `rpcEnded, `cancelReason)
      ensures unchanged(`nativeError, `cancelRequested, session`binding)
    {
      hide CallsOk, RecordsOk, ToolsKept;
      ToolsKeptReflexive(tools);
      if confirmation {
        kept := AdmitConfirmation(c, second);
        verdict := Taken;
      } else {
        kept := false;
        verdict := AdmitInvocation(c, name, decoded, first, second);
      }
    }

    method AdmitConfirmation(c: CallId, decision: Evidence) returns (kept: bool)
      requires RecordsOk() && CallsOk(callbackPhases, live, waiting, seen.receipts, started, seen.stranded)
      requires (c, true) !in callbackPhases
      modifies `callbackPhases, `live, `events, `eventBytes, `overflow, `seen
      ensures RecordsOk() && CallsOk(callbackPhases, live, waiting, seen.receipts, started, seen.stranded)
      ensures seen == old(seen).(offered := old(seen.offered) + [decision], overflow := overflow, full := seen.full)
      ensures callbackPhases == old(callbackPhases) + {(c, true)} && (kept <==> !old(TooBig(decision)))
    {
      hide CallsOk, RecordsOk;
      CallsAdmit(callbackPhases, live, waiting, seen.receipts, started, seen.stranded, c, true, true);
      kept := RetainRecord(decision);
      callbackPhases, live := callbackPhases + {(c, true)}, live + {(c, true)};
    }

    /** A retained invocation is observed as a tool call, which may find it under another identity; one that
        forms no operation has its receipt at once. */
    method AdmitInvocation(c: CallId, name: ToolName, decoded: bool, first: Evidence, second: Evidence)
      returns (verdict: Verdict)
      requires RecordsOk() && CallsOk(callbackPhases, live, waiting, seen.receipts, started, seen.stranded)
      requires (c, false) !in callbackPhases && !overflow && seen.tools == tools
      modifies `callbackPhases, `live, `waiting, `tools,
               `events, `eventBytes, `overflow, `effects, `seen
      ensures RecordsOk() && CallsOk(callbackPhases, live, waiting, seen.receipts, started, seen.stranded)
      ensures verdict == if old(Mismatched(c, name, false, first)) then Stranded else Taken
      ensures callbackPhases == old(callbackPhases) + {(c, false)}
      ensures seen == Offered(old(seen), c, false, verdict, decoded, first, second)
                      .(overflow := overflow, full := seen.full, tools := tools)
      ensures waiting == if verdict.Taken? && decoded then old(waiting) + {c} else old(waiting)
      ensures ToolsKept(old(tools), tools)
    {
      hide CallsOk, EvidenceOk, RepliesOk, EffectsOk, ToolsKept;
      CallsAdmit(callbackPhases, live, waiting, seen.receipts, started, seen.stranded, c, false, decoded);
      CallsStrand(callbackPhases, live, waiting, seen.receipts, started, seen.stranded, c);
      var known := ObserveInvocation(c, name, first);
      callbackPhases := callbackPhases + {(c, false)};
      if !known {
        seen := seen.(stranded := seen.stranded + {c});
        return Stranded;
      }
      if decoded {
        waiting := waiting + {c};
      } else {
        Effect(c, second);
      }
      live := live + {(c, false)};
      verdict := Taken;
    }

    /** The invocation is retained and, if it was, observed. */
    method ObserveInvocation(c: CallId, name: ToolName, first: Evidence) returns (known: bool)
      requires RecordsOk() && !overflow && seen.tools == tools
      modifies `tools, `events, `eventBytes, `overflow, `seen
      ensures RecordsOk() && ToolsKept(old(tools), tools)
      ensures seen == old(seen).(offered := old(seen.offered) + [first], overflow := overflow, full := seen.full,
                                 tools := tools)
      ensures known <==> !old(Mismatched(c, name, false, first))
      ensures unchanged(`callbackPhases, `live, `waiting, `started, `response, `responseBytes, `effects)
    {
      hide EvidenceOk, RepliesOk, EffectsOk;
      var kept := RetainRecord(first);
      known := true;
      if kept {
        known := ObserveTool(ToolCall(c, ToolIdentity(name, BridgeTool)));
      }
    }

    /** `_effect`: one receipt for one invocation. */
    method Effect(c: CallId, e: Evidence)
      requires RecordsOk() && c !in seen.receipts
      modifies `events, `eventBytes, `overflow, `effects, `seen
      ensures RecordsOk() && (old(overflow) ==> overflow)
      ensures seen == old(seen).(offered := old(seen.offered) + [e], receipts := old(seen.receipts) + [c],
                                 overflow := overflow, full := seen.full)
      ensures unchanged(`callbackPhases, `live, `waiting, `started, `response, `responseBytes, `tools)
    {
      hide EvidenceOk, RepliesOk;
      var kept := RetainRecord(e);
      seen := seen.(receipts := seen.receipts + [c]);
      if kept { effects := effects + [c]; }
    }

    /** The work of an invocation is over: its only receipt is given. */
    method GiveReceipt(c: CallId, e: Evidence)
      requires RecordsOk() && CallsOk(callbackPhases, live, waiting, seen.receipts, started, seen.stranded)
      requires c in waiting
      modifies `waiting, `events, `eventBytes, `overflow, `effects, `seen
      ensures RecordsOk() && CallsOk(callbackPhases, live, waiting, seen.receipts, started, seen.stranded)
      ensures seen == old(seen).(offered := old(seen.offered) + [e], receipts := old(seen.receipts) + [c],
                                 overflow := overflow, full := seen.full)
      ensures c !in old(seen.receipts) && waiting == old(waiting) - {c} && (old(overflow) ==> overflow)
      ensures unchanged(`callbackPhases, `callbackInputs, `live, `started, `begun, `ended, `rpcEnded)
      ensures unchanged(`cancelReason, `nativeError, `cancelRequested, `tools, session`binding)
    {
      CallsReceipt(callbackPhases, live, waiting, seen.receipts, started, seen.stranded, c);
      hide CallsOk, RecordsOk;
      Effect(c, e);
      waiting := waiting - {c};
    }

    /** The head of `_execute_owned`: an effect starts only in an undisturbed turn. */
    method StartEffect(c: CallId, e: Evidence, open: bool) returns (starts: bool)
      requires Valid() && c in waiting && c !in started
      modifies `started, `waiting, `events, `eventBytes, `overflow, `effects, `seen
      ensures Grew(old(seen), seen)
      ensures Valid()
      ensures starts <==> !old(overflow) && !old(cancelRequested) && open
      ensures starts ==> seen == old(seen).(started := old(seen.started) + [c]) && waiting == old(waiting)
      ensures !starts ==>
                && seen == old(seen).(offered := old(seen.offered) + [e], receipts := old(seen.receipts) + [c],
                                 overflow := overflow, full := seen.full)
                && waiting == old(waiting) - {c}
    {
      hide EvidenceOk, RepliesOk, EffectsOk, CallsOk, AdmittedOk, LogOk, EndingOk, BindingOk, Grew;
      ghost var was := seen;
      starts := !overflow && !cancelRequested && open;
      if starts {
        CallsStart(callbackPhases, live, waiting, seen.receipts, started, seen.stranded, c);
        StartGrew(was, c);
        started, seen := started + [c], seen.(started := seen.started + [c]);
      } else {
        GiveReceipt(c, e);
        ReceiptGrew(was, seen);
      }
    }

    /** The workspace operation settled, by result or by cancellation. */
    method EffectDone(c: CallId, e: Evidence)
      requires Valid() && c in waiting && c in started
      modifies `waiting, `events, `eventBytes, `overflow, `effects, `seen
      ensures Grew(old(seen), seen)
      ensures Valid() && c !in old(seen.receipts) && waiting == old(waiting) - {c}
      ensures seen == old(seen).(offered := old(seen.offered) + [e], receipts := old(seen.receipts) + [c],
                                 overflow := overflow, full := seen.full)
    {
      hide EvidenceOk, RepliesOk, EffectsOk, CallsOk, AdmittedOk, LogOk, EndingOk, BindingOk, Grew;
      ghost var was := seen;
      GiveReceipt(c, e);
      ReceiptGrew(was, seen);
    }

    /** A callback task ends once its work is done and its reply is written. */
    method CallbackEnds(c: CallId, confirmation: bool)
      requires Valid() && (c, confirmation) in live && (confirmation || c !in waiting)
      modifies `live
      ensures Valid() && live == old(live) - {(c, confirmation)}
    {
      hide BindingOk, EndingOk, RecordsOk, LogOk, AdmittedOk;
      live := live - {(c, confirmation)};
    }

    /** `_signal_cancel`: the request is recorded every time and sent at most once in a turn. `dispatched`:
        the prompt itself was sent; `open`: the transport is. */
    method SignalCancel(dispatched: bool, open: bool) returns (notify: bool)
      requires Valid()
      modifies `cancelRequested, `seen
      ensures Grew(old(seen), seen)
      ensures Valid() && cancelRequested && seen == old(seen).(cancelRequested := true)
      ensures notify <==> !old(cancelRequested) && dispatched && !rpcEnded && open
    {
      hide EvidenceOk, RepliesOk, EffectsOk, CallsOk, AdmittedOk, LogOk, EndingOk, BindingOk, Grew;
      CancelGrew(seen);
      notify := !cancelRequested && dispatched && !rpcEnded && open;
      cancelRequested, seen := true, seen.(cancelRequested := true);
    }

    /** `settle_callbacks` has returned; `false` when it raised or the turn did not fully terminate. */
    method JoinCallbacks() returns (ok: bool)
      requires Valid() && live == {}
      modifies `joined
      ensures Valid()
      ensures ok == (ended && rpcEnded && !broken) && joined == (old(joined) || ok)
    {
      hide Sound;
      ok := ended && rpcEnded && !broken;
      if ok { joined := true; }
    }

    /** Nothing that arrived was left out of the observation. */
    ghost predicate Complete()
      reads this
    {
      events == seen.offered && response == seen.replies && effects == seen.receipts
    }

    /** A piece of evidence or a reply was the first not to fit its budget. */
    ghost predicate SomethingDidNotFit()
      reads this
    {
      || (|events| < |seen.offered| && Size(events) + seen.offered[|events|].size > eventLimit)
      || (|response| < |seen.replies| && ReplySize(response) + seen.replies[|response|].size > responseLimit)
    }

    /** One end, then one response, nothing after; every callback joined; every invocation with its receipt. */
    ghost predicate Settled()
      reads this
    {
      var log := seen.log;
      && live == {} && waiting == {}
      && seen.ending.Some? && seen.ending.value.End? && seen.answer.Some?
      && |log| >= 2 && log[|log| - 1] == Answered && log[|log| - 2] == Ended
      && (forall i | 0 <= i < |log| - 2 :: log[i] == Began || log[i] == Reported)
      && (firstTurn ==> Began in log)
      && (forall c :: (c, false) in callbackPhases <==> c in seen.receipts)
    }

    /** The observation is what the budgets left of what arrived, and it is complete exactly when the turn was
        settled and everything fitted. */
    ghost predicate RecordTruth(t: Terminal)
      reads this, session`binding
    {
      var o := t.observation;
      && o.binding == session.binding && o.tools == tools
      && o.events == events <= seen.offered && Size(events) <= eventLimit
      && (seen.full ==> events == seen.offered[..Fitting(seen.offered, eventLimit)])
      && o.response == response <= seen.replies && ReplySize(response) <= responseLimit
      && o.effects == effects <= seen.receipts && Distinct(seen.receipts)
      && (overflow <==> SomethingDidNotFit()) && (!overflow ==> Complete())
      && (o.complete <==> !t.NotSettled? && !overflow)
    }

    /** Which terminal it is follows from the accepted end and the response. */
    ghost predicate OutcomeTruth(t: Terminal)
      requires seen.ending.Some? && seen.ending.value.End? && seen.answer.Some?
      reads this, session`binding
    {
      var reason, error := seen.ending.value.reason, seen.ending.value.error;
      && (t.NativeCancelled? <==> reason.Some?)
      && (t.NativeCancelled? ==> t.reason == if overflow then None else reason)
      && (t.NativeFailed? <==>
            reason.None? && !overflow && !cancelRequested && (seen.answer.value.RpcError? || error.Some?))
      && (t.NativeFailed? ==> Some(t.error) == if seen.answer.value.RpcError? then Some(seen.answer.value.error) else error)
      && (t.NativeCompleted? <==>
            reason.None? && !overflow && !cancelRequested && seen.answer.value.RpcResult? && error.None?)
      && (t.NativeCompleted? ==>
            var a := seen.answer.value; session.binding == Conversation(a.model, a.conversation, a.turn))
    }

    /** A terminal tells the truth about its turn. */
    ghost predicate Truth(failed: bool, t: Terminal)
      reads this, session`binding
    {
      && RecordTruth(t)
      && if failed then t.NotSettled? else Settled() && OutcomeTruth(t)
    }

    /** The end of `run_turn`. `failed`: an exception or a cancellation reached the turn. */
    method Finish(failed: bool) returns (t: Terminal)
      requires Valid() && (!failed ==> joined && !broken)
      ensures Truth(failed, t)
    {
      RecordFacts();
      if !failed { SettledFacts(); }
      hide Valid, Settled, SomethingDidNotFit, Complete, Fitting, Size, ReplySize;
      var view := Observation(session.binding, response, events, tools, effects, false);
      if failed { return NotSettled(view); }
      var observation := view.(complete := !overflow);
      if cancelReason.Some? { return NativeCancelled(observation, if overflow then None else cancelReason); }
      if overflow || cancelRequested { return NotSettled(view); }
      if nativeError.Some? { return NativeFailed(observation, nativeError.value); }
      return NativeCompleted(observation);
    }

    lemma RecordFacts()
      requires Valid()
      ensures events <= seen.offered && Size(events) <= eventLimit
      ensures seen.full ==> events == seen.offered[..Fitting(seen.offered, eventLimit)]
      ensures response <= seen.replies && ReplySize(response) <= responseLimit
      ensures effects <= seen.receipts && Distinct(seen.receipts)
      ensures (overflow <==> SomethingDidNotFit()) && (!overflow ==> Complete())
    {
      hide BindingOk, EndingOk, CallbacksOk, LogOk, Fitting, Size, ReplySize, Distinct;
      if seen.full {
        FullRecordIsLongest(events, seen.offered, eventBytes, eventLimit, overflow);
      }
    }

    lemma SettledFacts()
      requires Valid() && joined && !broken
      ensures Settled()
      ensures cancelReason == seen.ending.value.reason
      ensures nativeError == if seen.answer.value.RpcError? then Some(seen.answer.value.error) else seen.ending.value.error
      ensures seen.answer.value.RpcResult? ==>
                var a := seen.answer.value; session.binding == Conversation(a.model, a.conversation, a.turn)
    {
      hide RecordsOk, AdmittedOk;
    }

    /** Whether an event can happen now. */
    predicate Enabled(e: TurnEvent)
      reads this
    {
      match e
      case ProgressArrives(_, _, _, _) => !broken
      case ResponseArrives(_) => !broken
      case CallbackArrives(_, _, _, _, _, _, _, _, _, _, _) => !broken
      case EffectStarts(c, _, _) => c in waiting && c !in started
      case EffectSettles(c, _) => c in waiting && c in started
      case CallbackReplies(c, confirmation) => (c, confirmation) in live && (confirmation || c !in waiting)
      case CallbacksJoin => live == {}
      case _ => true
    }

    method Perform(e: TurnEvent)
      requires Valid() && Enabled(e)
      modifies this, session`binding
      ensures Valid() && BindingKept(old(session.binding), session.binding)
      ensures Grew(old(seen), seen) && (old(broken) ==> broken && NothingArrived(old(seen), seen))
    {
      hide Valid, Grew;
      GrewIsReflexive(seen);
      match e {
        case ProgressArrives(p, correlated, evidence, chunks) =>
          var _ := OnProgress(p, correlated, evidence, chunks);
        case ResponseArrives(r) =>
          var _ := OnTerminalRpc(r);
        case CallbackArrives(c, name, confirmation, input, conversation, turn, wellFormed, decoded, allowed, first, second) =>
          var _, _ := OnCallback(c, name, confirmation, input, conversation, turn, wellFormed, decoded, allowed, first, second);
        case EffectStarts(c, evidence, open) =>
          var _ := StartEffect(c, evidence, open);
        case EffectSettles(c, evidence) =>
          EffectDone(c, evidence);
        case CallbackReplies(c, confirmation) =>
          CallbackEnds(c, confirmation);
        case CancelSignalled(dispatched, open) =>
          var _ := SignalCancel(dispatched, open);
        case CallbacksJoin =>
          var _ := JoinCallbacks();
      }
    }

    /** A whole turn: any interleaving of its events. Every callback ever accepted in it is on the list,
        and the list holds each call's confirmation and invocation at most once, with one input. */
    method Serve(turnEvents: seq<TurnEvent>)
      requires Valid()
      modifies this, session`binding
      ensures Valid() && BindingKept(old(session.binding), session.binding)
      ensures Grew(old(seen), seen)
      ensures OncePerPhase(seen.admitted) && OfTheTurn(seen.admitted, session.binding)
      ensures forall c | c in seen.started :: Invoked(seen.admitted, c)
      ensures old(callbackPhases) <= callbackPhases && InputsKept(old(callbackInputs), callbackInputs)
      ensures old(broken) ==> broken && NothingArrived(old(seen), seen)
      ensures old(ended || rpcEnded || overflow || cancelRequested || broken) ==>
                seen.admitted == old(seen.admitted)
                && callbackPhases == old(callbackPhases) && InputsKept(callbackInputs, old(callbackInputs))
    {
      AdmittedNow();
      ghost var was, phases, inputs := seen, callbackPhases, callbackInputs;
      hide Valid, Grew, AdmittedOk, InputsKept, OncePerPhase, OfTheTurn, Invoked, Shut;
      GrewIsReflexive(seen);
      for i := 0 to |turnEvents|
        invariant Valid() && BindingKept(old(session.binding), session.binding)
        invariant Grew(was, seen) && (old(broken) ==> broken && NothingArrived(was, seen))
      {
        if Enabled(turnEvents[i]) {
          ghost var before := seen;
          Perform(turnEvents[i]);
          GrewIsTransitive(was, before, seen);
        }
      }
      AdmittedNow();
      GrewAdmits(was, seen);
      AdmittedTell(was.admitted, phases, inputs, seen.admitted, callbackPhases, callbackInputs);
      if Shut(was) || old(broken) {
        AdmittedTell(seen.admitted, callbackPhases, callbackInputs, was.admitted, phases, inputs);
      }
    }

    lemma AdmittedNow()
      requires Valid()
      ensures AdmittedOk(seen.admitted, callbackPhases, callbackInputs)
      ensures ended || rpcEnded || overflow || cancelRequested <==> Shut(seen)
      ensures OncePerPhase(seen.admitted) && OfTheTurn(seen.admitted, session.binding)
      ensures forall c | c in seen.started :: Invoked(seen.admitted, c)
    {
      hide OfTheTurn, EndingOk, EvidenceOk, RepliesOk, EffectsOk, InPhase, HasInput, OncePerPhase;
      LogTells(seen.log, begun, ended, rpcEnded);
      forall c | c in seen.started
        ensures Invoked(seen.admitted, c)
      {
        assert (c, false) in callbackPhases;
      }
    }
  }

  /** Turns are globally serialized: one active turn per client. */
  class NativeClient {
    var open: bool
    var active: NativeTurn?

    constructor ()
      ensures open && active == null
    {
      open, active := true, null;
    }

    /** The head of `run_turn`. */
    method StartTurn(s: NativeSession, timeout: real, eventLimit: int, responseLimit: int) returns (t: NativeTurn?)
      modifies this
      ensures open == old(open) && s.binding == old(s.binding)
      ensures t != null <==> old(open) && old(active) == null && timeout > 0.0 && eventLimit > 0 && responseLimit > 0 && !s.retired
      ensures t != null ==> fresh(t) && active == t && t.Valid() && t.session == s && t.seen.log == []
                            && t.eventLimit == eventLimit && t.responseLimit == responseLimit
      ensures t == null ==> active == old(active)
    {
      if !open || active != null || timeout <= 0.0 || eventLimit <= 0 || responseLimit <= 0 || s.retired { return null; }
      t := new NativeTurn(s, eventLimit, responseLimit);
      active := t;
    }

    /** A session's turns, one after another, each with any run of its events: the conversation the
        session was bound to is the one it stays bound to. */
    method RunTurns(s: NativeSession, timeout: real, eventLimit: int, responseLimit: int, turns: seq<seq<TurnEvent>>)
      returns (terminals: seq<Terminal>)
      modifies this, s`binding
      ensures BindingKept(old(s.binding), s.binding)
      ensures forall t | t in terminals :: BindingKept(old(s.binding), t.observation.binding)
                                           && BindingKept(t.observation.binding, s.binding)
    {
      terminals := [];
      for i := 0 to |turns|
        invariant BindingKept(old(s.binding), s.binding)
        invariant forall t | t in terminals :: BindingKept(old(s.binding), t.observation.binding)
                                               && BindingKept(t.observation.binding, s.binding)
      {
        var turn := StartTurn(s, timeout, eventLimit, responseLimit);
        if turn != null {
          turn.Serve(turns[i]);
          var terminal := turn.Finish(!turn.joined || turn.broken);
          active := null;
          terminals := terminals + [terminal];
        }
      }
    }

    /** `retire_session`: refused while the session's turn is active. */
    method RetireSession(s: NativeSession, acknowledged: bool) returns (ok: bool)
      modifies this, s`retired
      ensures ok <==> !old(s.retired) && !(old(active) != null && old(active).session == s)
                      && (s.binding.Conversation? ==> acknowledged)
      ensures s.retired == (old(s.retired) || ok) && active == old(active)
      ensures open == (old(open) && (old(s.retired) || (old(active) != null && old(active).session == s)
                                     || s.binding.Allocated? || acknowledged))
    {
      if s.retired || (active != null && active.session == s) { return false; }
      if s.binding.Conversation? && !acknowledged {
        open := false;
        return false;
      }
      s.retired := true;
      return true;
    }
  }
}
