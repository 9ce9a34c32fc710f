/** owned_commands.py: bounded capture of a command's output, and the loop that returns a result only
  * after the process tree is gone. The platform's process object is the environment. */
module OwnedCommands {
  import opened Basics

  /** The first `limit` bytes of a stream. */
  function Prefix(stream: Bytes, limit: nat): Bytes {
    if |stream| <= limit then stream else stream[..limit]
  }

  class Capture {
    const limit: nat
    var data: Bytes
    var truncated: bool
    var eof: bool
    /** Everything the pipe has delivered. */
    ghost var stream: Bytes

    /** The capture is the first `limit` bytes of its stream, and says exactly when there were more. */
    ghost predicate Valid()
      reads this
    {
      data == Prefix(stream, limit) && (truncated <==> |stream| > limit)
    }

    constructor (limit: nat)
      ensures Valid() && this.limit == limit && stream == [] && !eof
    {
      this.limit := limit;
      data, truncated, eof, stream := [], false, false, [];
    }

    /** `accept`: nothing yet, end of file, or a chunk. */
    method Accept(chunk: Option<Bytes>)
      requires Valid()
      modifies this
      ensures Valid()
      ensures stream == if chunk.Some? then old(stream) + chunk.value else old(stream)
      ensures eof == (old(eof) || chunk == Some([]))
    {
      if chunk.None? {
        return;
      }
      if chunk.value == [] {
        eof := true;
        return;
      }
      var available := if limit > |data| then limit - |data| else 0;
      data := data + Prefix(chunk.value, available);
      truncated := truncated || |chunk.value| > available;
      stream := stream + chunk.value;
    }
  }

  // --- the process -----------------------------------------------------------------------------

  /** The calls made on the process, with the answers that matter for their order; and with a poll, whether a
    * stop was requested and the command's deadline had passed when it was answered, with a look at the tree
    * whether the pipes' deadline had. */
  datatype Call =
    | ReadOut | ReadErr | Poll(code: Option<int>, stopRequested: bool, pastDeadline: bool)
    | StopTree | TreeStopped(yes: bool, pastPipeDeadline: bool) | Close

  /** A call, whether it raised, and whether each pipe has reached end of file since. */
  datatype Entry = Entry(call: Call, raised: bool, outEnded: bool, errEnded: bool)

  type Log = seq<Entry>

  /** What one call meets: whether it raises, and each kind of answer it may give; and for the loop,
    * whether a stop is requested and whether the command's and the pipes' deadlines have passed. */
  datatype Answer = Answer(
    raises: bool, chunk: Option<Bytes>, code: Option<int>, treeStopped: bool,
    stopRequested: bool, pastDeadline: bool, pastPipeDeadline: bool)

  class OwnedProcess {
    var answers: seq<Answer>
    ghost var log: Log
    /** What the two pipes have delivered, and whether each has reached end of file. */
    ghost var out: Bytes
    ghost var err: Bytes
    ghost var outEnded: bool
    ghost var errEnded: bool

    constructor (answers: seq<Answer>)
      ensures this.answers == answers && log == [] && out == [] && err == [] && !outEnded && !errEnded
    {
      this.answers := answers;
      log, out, err, outEnded, errEnded := [], [], [], false, false;
    }

    method Take() returns (answer: Answer)
      requires answers != []
      modifies `answers
      ensures answer == old(answers)[0] && answers == old(answers)[1..]
    {
      answer, answers := answers[0], answers[1..];
    }

    ghost method Note(call: Call, raised: bool)
      modifies `log
      ensures log == old(log) + [Entry(call, raised, outEnded, errEnded)]
    {
      log := log + [Entry(call, raised, outEnded, errEnded)];
    }

    method Read(stdout: bool) returns (raised: bool, chunk: Option<Bytes>)
      requires answers != []
      modifies `answers, `log, `out, `err, `outEnded, `errEnded
      ensures |answers| == |old(answers)| - 1
      ensures log == old(log) + [Entry(if stdout then ReadOut else ReadErr, raised, outEnded, errEnded)]
      ensures var got := if raised || chunk.None? then [] else chunk.value;
              && out == old(out) + (if stdout then got else [])
              && err == old(err) + (if stdout then [] else got)
              && outEnded == (old(outEnded) || (stdout && !raised && chunk == Some([])))
              && errEnded == (old(errEnded) || (!stdout && !raised && chunk == Some([])))
    {
      var answer := Take();
      raised, chunk := answer.raises, answer.chunk;
      if !raised && chunk.Some? {
        if stdout {
          out, outEnded := out + chunk.value, outEnded || chunk.value == [];
        } else {
          err, errEnded := err + chunk.value, errEnded || chunk.value == [];
        }
      }
      Note(if stdout then ReadOut else ReadErr, raised);
    }

    method PollRoot() returns (raised: bool, code: Option<int>, now: Answer)
      requires answers != []
      modifies `answers, `log
      ensures |answers| == |old(answers)| - 1
      ensures log == old(log) + [Entry(Poll(code, now.stopRequested, now.pastDeadline), raised, outEnded, errEnded)]
    {
      now := Take();
      raised, code := now.raises, now.code;
      Note(Poll(code, now.stopRequested, now.pastDeadline), raised);
    }

    method Stop() returns (raised: bool)
      requires answers != []
      modifies `answers, `log
      ensures |answers| == |old(answers)| - 1 && log == old(log) + [Entry(StopTree, raised, outEnded, errEnded)]
    {
      var answer := Take();
      raised := answer.raises;
      Note(StopTree, raised);
    }

    method IsTreeStopped() returns (raised: bool, yes: bool, now: Answer)
      requires answers != []
      modifies `answers, `log
      ensures |answers| == |old(answers)| - 1 && !(raised && yes)
      ensures log == old(log) + [Entry(TreeStopped(yes, now.pastPipeDeadline), raised, outEnded, errEnded)]
    {
      now := Take();
      raised, yes := now.raises, now.treeStopped && !now.raises;
      Note(TreeStopped(yes, now.pastPipeDeadline), raised);
    }

    method CloseHandles() returns (raised: bool)
      requires answers != []
      modifies `answers, `log
      ensures |answers| == |old(answers)| - 1 && log == old(log) + [Entry(Close, raised, outEnded, errEnded)]
    {
      var answer := Take();
      raised := answer.raises;
      Note(Close, raised);
    }
  }

  // --- the order of the calls ------------------------------------------------------------------

  predicate Gone(e: Entry) {
    e.call.TreeStopped? && e.call.yes
  }

  /** The tree is gone and both pipes have ended. */
  predicate Settled(e: Entry) {
    Gone(e) && e.outEnded && e.errEnded
  }

  ghost predicate NeverStopped(log: Log) {
    forall i :: 0 <= i < |log| ==> log[i].call != StopTree
  }

  /** The tree was found stopped. */
  ghost predicate TreeGone(log: Log) {
    exists i :: 0 <= i < |log| && Gone(log[i])
  }

  ghost predicate NeverClosed(log: Log) {
    forall i :: 0 <= i < |log| ==> log[i].call != Close
  }

  /** The answer to the poll that is made once everything has settled. */
  predicate Answered(log: Log, code: Option<int>) {
    |log| >= 2 && Settled(log[|log| - 2])
    && var last := log[|log| - 1]; !last.raised && last.call.Poll? && last.call.code == code
  }

  /** The tree was found stopped a second time with a pipe still open, past the pipes' deadline. */
  ghost predicate LeftOpen(log: Log) {
    |log| > 0 && StaysOpen(log[..|log| - 1], log[|log| - 1])
  }

  ghost predicate StaysOpen(before: Log, last: Entry) {
    !last.raised && Gone(last) && !Settled(last) && last.call.pastPipeDeadline && TreeGone(before)
  }

  /** The calls a round begins with: a read of each pipe that has not ended, then a poll. */
  predicate Begins(e: Entry, call: Call) {
    if !e.outEnded then call.ReadOut? else if !e.errEnded then call.ReadErr? else call.Poll?
  }

  /** The call the loop makes next, if any. */
  ghost predicate Due(log: Log, call: Call) {
    if log == [] then call.ReadOut? else DueAfter(log[..|log| - 1], log[|log| - 1], call)
  }

  ghost predicate DueAfter(before: Log, last: Entry, call: Call) {
    !last.raised &&
    match last.call
    case ReadOut => if last.errEnded then call.Poll? else call.ReadErr?
    case ReadErr => call.Poll?
    case Poll(code, stopRequested, pastDeadline) =>
      if before != [] && Settled(before[|before| - 1]) then false
      else if !NeverStopped(before) || code.Some? || stopRequested || pastDeadline then call.StopTree?
      else Begins(last, call)
    case StopTree => if NeverStopped(before) then call.StopTree? else call.TreeStopped?
    case TreeStopped(_, _) => if Settled(last) then call.Poll? else !StaysOpen(before, last) && Begins(last, call)
    case Close => false
  }

  /** Every call was due when it was made. */
  ghost predicate InOrder(log: Log) {
    forall i {:trigger log[i]} :: 0 <= i < |log| ==> Due(log[..i], log[i].call)
  }

  /** Once the root has exited, a stop is requested or the deadline has passed, the next call stops the tree, and
    * from then on it is stopped again in every round before it is looked at. */
  lemma StopsAtOnce(log: Log, i: nat)
    requires InOrder(log) && i + 1 < |log|
    ensures var last, next := log[i], log[i + 1].call;
      && !last.raised
      && (last.call.Poll? && (i == 0 || !Settled(log[i - 1]))
          && (last.call.code.Some? || last.call.stopRequested || last.call.pastDeadline || !NeverStopped(log[..i])) ==>
            next == StopTree)
      && (next.TreeStopped? ==> last.call == StopTree)
      && (next == StopTree && NeverStopped(log[..i + 1]) ==>
            last.call.Poll? && (last.call.code.Some? || last.call.stopRequested || last.call.pastDeadline))
  {
    assert Due(log[..i + 1], log[i + 1].call);
    assert log[..i + 1][..i] == log[..i];
  }

  lemma Goes(log: Log, entry: Entry)
    requires InOrder(log) && Due(log, entry.call)
    ensures InOrder(log + [entry])
  {
    var all := log + [entry];
    forall i | 0 <= i < |all|
      ensures Due(all[..i], all[i].call)
    {
      assert all[..i] == log[..i];
      assert i < |log| ==> all[i] == log[i];
      assert i == |log| ==> all[..i] == log;
    }
  }

  /** The calls of the cleanup: stop until the tree is found gone, then close. */
  predicate CleanupDue(before: Log, call: Call) {
    if before == [] then call.StopTree? else
    var last := before[|before| - 1];
    !last.raised &&
    match last.call
    case StopTree => call.TreeStopped?
    case TreeStopped(yes, _) => if yes then call.Close? else call.StopTree?
    case _ => false
  }

  ghost predicate CleanupOrder(log: Log) {
    forall i {:trigger log[i]} :: 0 <= i < |log| ==> CleanupDue(log[..i], log[i].call)
  }

  lemma Cleans(log: Log, entry: Entry)
    requires CleanupOrder(log) && CleanupDue(log, entry.call)
    ensures CleanupOrder(log + [entry])
  {
    var all := log + [entry];
    forall i | 0 <= i < |all|
      ensures CleanupDue(all[..i], all[i].call)
    {
      assert all[..i] == log[..i];
      assert i < |log| ==> all[i] == log[i];
      assert i == |log| ==> all[..i] == log;
    }
  }

  // --- the run ---------------------------------------------------------------------------------

  datatype CommandResult = CommandResult(
    stdout: Bytes, stderr: Bytes, outTruncated: bool, errTruncated: bool, code: int, timedOut: bool)

  /** How the loop before `finally` is left; `Unfinished` when the answers end first. */
  datatype Leaving = Result(result: CommandResult) | Failed | PipesStayedOpen | Unfinished

  /** How `_run` ends; a cleanup failure hides a result. */
  datatype Outcome = Returned(result: CommandResult) | Raised | CleanupRaised | StillRunning

  datatype CleanupEnd = AllClosed | CallRaised | NoAnswers

  /** The loop breaks off when a call raises, or when the root has no exit code once everything has settled. */
  ghost predicate BrokeOff(log: Log) {
    |log| > 0 && (log[|log| - 1].raised || Answered(log, None))
  }

  /** No log calls for two ways out. */
  lemma OneWayOut(log: Log, code: int)
    ensures !(BrokeOff(log) && LeftOpen(log))
    ensures Answered(log, Some(code)) ==> !BrokeOff(log) && !LeftOpen(log)
  {
  }

  /** Once one of them is called for, the loop makes no further call. */
  lemma NothingIsDue(log: Log, call: Call, code: int)
    requires BrokeOff(log) || LeftOpen(log) || Answered(log, Some(code))
    ensures !Due(log, call)
  {
  }

  /** `close` comes once, last, and directly after the tree was found stopped. */
  ghost predicate ClosedAfterTree(log: Log) {
    && |log| >= 2 && log[|log| - 1].call == Close && Gone(log[|log| - 2])
    && NeverClosed(log[..|log| - 1])
  }

  ghost predicate FirstStopAt(log: Log, i: nat) {
    i < |log| && log[i].call == StopTree && forall j :: 0 <= j < i ==> log[j].call != StopTree
  }

  /** What the first stop answers: directly before it the root had exited, or a stop was requested, or the
    * deadline had passed; the deadline was the reason exactly when neither of the others was. */
  predicate Calls(poll: Call, timedOut: bool) {
    && poll.Poll? && (poll.code.Some? || poll.stopRequested || poll.pastDeadline)
    && (timedOut <==> poll.code.None? && !poll.stopRequested)
  }

  ghost predicate StoppedFor(log: Log, timedOut: bool) {
    exists i: nat {:trigger FirstStopAt(log, i)} :: 0 < i && FirstStopAt(log, i) && Calls(log[i - 1].call, timedOut)
  }

  /** There is one first stop, so there is one reason. */
  lemma StoppedForOneReason(log: Log, a: bool, b: bool)
    requires StoppedFor(log, a) && StoppedFor(log, b)
    ensures a == b
  {
    var i: nat :| 0 < i && FirstStopAt(log, i) && Calls(log[i - 1].call, a);
    var j: nat :| 0 < j && FirstStopAt(log, j) && Calls(log[j - 1].call, b);
    assert i == j;
  }

  /** A result tells the whole of both streams up to the limit, and whether the deadline was what stopped it. */
  ghost predicate Truthful(result: CommandResult, p: OwnedProcess, limit: nat)
    reads p
  {
    && result.stdout == Prefix(p.out, limit) && (result.outTruncated <==> |p.out| > limit) && p.outEnded
    && result.stderr == Prefix(p.err, limit) && (result.errTruncated <==> |p.err| > limit) && p.errEnded
    && StoppedFor(p.log, result.timedOut)
  }

  /** What one more call makes of a log. */
  lemma LogGrows(log: Log, entry: Entry)
    ensures TreeGone(log + [entry]) <==> TreeGone(log) || Gone(entry)
    ensures NeverClosed(log + [entry]) <==> NeverClosed(log) && entry.call != Close
    ensures NeverStopped(log + [entry]) <==> NeverStopped(log) && entry.call != StopTree
    ensures forall timedOut {:trigger StoppedFor(log + [entry], timedOut)} ::
              StoppedFor(log, timedOut) ==> StoppedFor(log + [entry], timedOut)
    ensures LeftOpen(log + [entry]) == StaysOpen(log, entry)
    ensures forall call: Call {:trigger Due(log + [entry], call)} :: Due(log + [entry], call) == DueAfter(log, entry, call)
    ensures InOrder(log) && Due(log, entry.call) ==> InOrder(log + [entry])
  {
    var all := log + [entry];
    assert forall i :: 0 <= i < |log| ==> all[i] == log[i];
    assert all[|log|] == entry && all[..|log|] == log;
    if TreeGone(log) {
      var i :| 0 <= i < |log| && Gone(log[i]);
      assert Gone(all[i]);
    }
    forall timedOut | StoppedFor(log, timedOut)
      ensures StoppedFor(all, timedOut)
    {
      var i: nat :| 0 < i && FirstStopAt(log, i) && Calls(log[i - 1].call, timedOut);
      assert FirstStopAt(all, i) && all[i - 1] == log[i - 1];
    }
    if InOrder(log) && Due(log, entry.call) {
      Goes(log, entry);
    }
    hide InOrder;
  }

  /** The reason for the stop is not changed by later calls. */
  lemma ReasonStays(log: Log, more: Log, all: Log)
    requires Cleaned(log, more, all)
    ensures forall timedOut {:trigger StoppedFor(all, timedOut)} :: StoppedFor(log, timedOut) ==> StoppedFor(all, timedOut)
  {
    forall timedOut | StoppedFor(log, timedOut)
      ensures StoppedFor(all, timedOut)
    {
      var i: nat :| 0 < i && FirstStopAt(log, i) && Calls(log[i - 1].call, timedOut);
      assert FirstStopAt(all, i);
    }
  }

  /** `_run` from the spawned process on: the calls of the loop, then those of the cleanup. */
  method Run(p: OwnedProcess, limit: nat) returns (outcome: Outcome, ghost loop: Log, ghost cleanup: Log)
    requires |p.log| == 0 && p.out == [] && p.err == [] && !p.outEnded && !p.errEnded
    modifies p
    ensures InOrder(loop) && Cleaned(loop, cleanup, p.log)
    ensures match outcome
            case Returned(result) =>
              Truthful(result, p, limit) && Answered(loop, Some(result.code)) && ClosedAfterTree(p.log)
            case Raised => (BrokeOff(loop) || LeftOpen(loop)) && ClosedAfterTree(p.log)
            case CleanupRaised => |cleanup| > 0 && cleanup[|cleanup| - 1].raised
            case StillRunning => NeverClosed(p.log) && |p.answers| < 7
  {
    hide InOrder, Answered, BrokeOff, LeftOpen, StoppedFor, Cleaned, ClosedAfterTree, NeverClosed;
    var leaving := Observe(p, limit);
    loop, cleanup := p.log, [];
    CleanupBegins(loop);
    if leaving.Unfinished? {
      outcome := StillRunning;
      return;
    }
    var end;
    end, cleanup := Cleanup(p);
    ReasonStays(loop, cleanup, p.log);
    outcome := match end
      case AllClosed => if leaving.Result? then Returned(leaving.result) else Raised
      case CallRaised => CleanupRaised
      case NoAnswers => StillRunning;
  }

  /** The polling loop of `_run`. */
  method Observe(p: OwnedProcess, limit: nat) returns (leaving: Leaving)
    requires |p.log| == 0 && p.out == [] && p.err == [] && !p.outEnded && !p.errEnded
    modifies p
    ensures InOrder(p.log) && NeverClosed(p.log)
    ensures match leaving
            case Result(result) => Truthful(result, p, limit) && Answered(p.log, Some(result.code))
            case Failed => BrokeOff(p.log)
            case PipesStayedOpen => LeftOpen(p.log)
            case Unfinished => |p.answers| < 7
  {
    var stdout := new Capture(limit);
    var stderr := new Capture(limit);
    var timedOut, stopped, pipeTimer := false, false, false;
    hide InOrder, NeverClosed, NeverStopped, StoppedFor, TreeGone, Answered, LeftOpen, Due;
    NothingYet();
    while true
      invariant fresh(stdout) && fresh(stderr) && stdout != stderr
      invariant stdout.limit == limit && stderr.limit == limit && InStep(p, stdout, stderr)
      invariant InOrder(p.log) && NeverClosed(p.log) && RoundDue(p)
      invariant stopped <==> !NeverStopped(p.log)
      invariant pipeTimer <==> TreeGone(p.log)
      invariant stopped ==> StoppedFor(p.log, timedOut)
      decreases |p.answers|
    {
      if |p.answers| < 7 {
        return Unfinished;
      }
      var failed := ReadBoth(p, stdout, stderr);
      if failed {
        return Failed;
      }
      failed, stopped, timedOut := PollAndStop(p, stopped, timedOut);
      if failed {
        return Failed;
      }
      if stopped {
        var left;
        leaving, left, pipeTimer := CheckTree(p, stdout, stderr, pipeTimer, timedOut);
        if left {
          return;
        }
      }
    }
  }

  lemma NothingYet()
    ensures InOrder([]) && NeverClosed([]) && NeverStopped([]) && !TreeGone([])
    ensures forall call: Call :: call.ReadOut? ==> Due([], call)
  {
  }

  /** A round may begin. */
  ghost predicate RoundDue(p: OwnedProcess)
    reads p
  {
    && (if p.log == [] then !p.outEnded && !p.errEnded else !Settled(p.log[|p.log| - 1]))
    && forall call: Call {:trigger Due(p.log, call)} ::
         Begins(Entry(Close, false, p.outEnded, p.errEnded), call) ==> Due(p.log, call)
  }

  /** The captures hold what the pipes have delivered. */
  ghost predicate InStep(p: OwnedProcess, stdout: Capture, stderr: Capture)
    reads p, stdout, stderr
  {
    && stdout.Valid() && stderr.Valid()
    && stdout.stream == p.out && stderr.stream == p.err
    && stdout.eof == p.outEnded && stderr.eof == p.errEnded
  }

  /** The middle part of a round: the root's state, and the stop it or the owner or the deadline calls
    * for. Whether the deadline was the reason is decided once, when the first stop is sent. */
  method PollAndStop(p: OwnedProcess, wasStopped: bool, wasTimedOut: bool)
    returns (failed: bool, stopped: bool, timedOut: bool)
    requires |p.answers| >= 3 && InOrder(p.log) && NeverClosed(p.log)
    requires p.log != [] && !Settled(p.log[|p.log| - 1])
    requires forall call: Call {:trigger Due(p.log, call)} :: call.Poll? ==> Due(p.log, call)
    requires wasStopped <==> !NeverStopped(p.log)
    requires wasStopped ==> StoppedFor(p.log, wasTimedOut)
    modifies p`answers, p`log
    ensures InOrder(p.log) && NeverClosed(p.log) && |old(p.answers)| - 3 <= |p.answers| < |old(p.answers)|
    ensures failed ==> BrokeOff(p.log)
    ensures !failed ==> (stopped <==> !NeverStopped(p.log))
    ensures !failed && !stopped ==> RoundDue(p)
    ensures !failed && stopped ==> StoppedFor(p.log, timedOut)
    ensures !failed && stopped ==> forall call: Call {:trigger Due(p.log, call)} :: call.TreeStopped? ==> Due(p.log, call)
    ensures TreeGone(p.log) <==> TreeGone(old(p.log))
    ensures wasStopped ==> stopped && timedOut == wasTimedOut
  {
    hide InOrder, Due, NeverClosed, NeverStopped, StoppedFor, TreeGone, LeftOpen;
    stopped, timedOut := wasStopped, wasTimedOut;
    ghost var log := p.log;
    var raised, code, now := p.PollRoot();
    ghost var polled := p.log;
    ghost var poll := polled[|log|];
    LogGrows(log, poll);
    if raised {
      return true, stopped, timedOut;
    }
    if !stopped {
      timedOut := code.None? && !now.stopRequested && now.pastDeadline;
      if code.Some? || now.stopRequested || timedOut {
        raised := p.Stop();
        LogGrows(polled, p.log[|polled|]);
        FirstStop(polled, p.log[|polled|]);
        if raised {
          return true, stopped, timedOut;
        }
        stopped := true;
      }
    }
    if stopped {
      log := p.log;
      raised := p.Stop();
      LogGrows(log, p.log[|log|]);
    }
    failed := raised;
  }

  lemma FirstStop(log: Log, entry: Entry)
    requires NeverStopped(log) && |log| > 0 && entry.call.StopTree?
    requires var poll := log[|log| - 1].call; poll.Poll? && Calls(poll, poll.code.None? && !poll.stopRequested)
    ensures StoppedFor(log + [entry], log[|log| - 1].call.code.None? && !log[|log| - 1].call.stopRequested)
  {
    var all := log + [entry];
    assert forall j :: 0 <= j < |log| ==> all[j] == log[j];
    assert FirstStopAt(all, |log|) && all[|log| - 1] == log[|log| - 1];
  }

  /** One read of each pipe that has not ended. */
  method ReadBoth(p: OwnedProcess, stdout: Capture, stderr: Capture) returns (failed: bool)
    requires stdout != stderr && InStep(p, stdout, stderr) && |p.answers| >= 2
    requires InOrder(p.log) && NeverClosed(p.log) && RoundDue(p)
    modifies p, stdout, stderr
    ensures InStep(p, stdout, stderr)
    ensures InOrder(p.log) && NeverClosed(p.log) && |old(p.answers)| - 2 <= |p.answers| <= |old(p.answers)|
    ensures failed ==> BrokeOff(p.log)
    ensures !failed ==> p.log != [] && !Settled(p.log[|p.log| - 1])
    ensures !failed ==> forall call: Call {:trigger Due(p.log, call)} :: call.Poll? ==> Due(p.log, call)
    ensures (NeverStopped(old(p.log)) <==> NeverStopped(p.log)) && (TreeGone(old(p.log)) <==> TreeGone(p.log))
    ensures forall timedOut {:trigger StoppedFor(p.log, timedOut)} ::
              StoppedFor(old(p.log), timedOut) ==> StoppedFor(p.log, timedOut)
  {
    hide InOrder, Due, NeverClosed, NeverStopped, StoppedFor, TreeGone, LeftOpen;
    failed := false;
    ghost var log := p.log;
    if !stdout.eof {
      var raised, chunk := p.Read(true);
      LogGrows(log, p.log[|log|]);
      if raised {
        return true;
      }
      stdout.Accept(chunk);
    }
    log := p.log;
    if !stderr.eof {
      var raised, chunk := p.Read(false);
      LogGrows(log, p.log[|log|]);
      if raised {
        return true;
      }
      stderr.Accept(chunk);
    }
  }

  /** The last part of a round: the tree, then the pipes, then their deadline. */
  method CheckTree(p: OwnedProcess, stdout: Capture, stderr: Capture, pipeTimer: bool, timedOut: bool)
    returns (leaving: Leaving, left: bool, timer: bool)
    requires |p.answers| >= 2
    requires InStep(p, stdout, stderr) && stdout.limit == stderr.limit
    requires InOrder(p.log) && NeverClosed(p.log) && StoppedFor(p.log, timedOut) && !NeverStopped(p.log)
    requires forall call: Call {:trigger Due(p.log, call)} :: call.TreeStopped? ==> Due(p.log, call)
    requires pipeTimer <==> TreeGone(p.log)
    modifies p`answers, p`log
    ensures InOrder(p.log) && NeverClosed(p.log) && |p.answers| < |old(p.answers)|
    ensures !left ==> StoppedFor(p.log, timedOut) && !NeverStopped(p.log) && RoundDue(p)
    ensures !left ==> (timer <==> TreeGone(p.log))
    ensures left ==> match leaving
                     case Result(result) => Truthful(result, p, stdout.limit) && Answered(p.log, Some(result.code))
                     case Failed => BrokeOff(p.log)
                     case PipesStayedOpen => LeftOpen(p.log)
                     case Unfinished => false
  {
    hide InOrder, Due, NeverClosed, NeverStopped, StoppedFor, TreeGone, LeftOpen;
    leaving, left, timer := Failed, true, pipeTimer;
    ghost var log := p.log;
    var raised, yes, now := p.IsTreeStopped();
    ghost var looked := p.log;
    LogGrows(log, looked[|log|]);
    if raised {
      return;
    }
    if !yes {
      left := false;
    } else if stdout.eof && stderr.eof {
      var failed, code, then' := p.PollRoot();
      LogGrows(looked, p.log[|looked|]);
      if !failed && code.Some? {
        leaving := Result(CommandResult(stdout.data, stderr.data, stdout.truncated, stderr.truncated,
                                        code.value, timedOut));
      }
    } else if !pipeTimer {
      left, timer := false, true;
    } else if now.pastPipeDeadline {
      leaving := PipesStayedOpen;
    } else {
      left := false;
    }
  }

  /** The `finally` block: stop until the tree is gone, then close; its failures are raised. */
  method Cleanup(p: OwnedProcess) returns (end: CleanupEnd, ghost calls: Log)
    requires NeverClosed(p.log)
    modifies p`answers, p`log
    ensures Cleaned(old(p.log), calls, p.log)
    ensures match end
            case AllClosed => ClosedAfterTree(p.log)
            case CallRaised => |calls| > 0 && calls[|calls| - 1].raised
            case NoAnswers => NeverClosed(p.log) && |p.answers| < 2
  {
    hide CleanupOrder, NeverClosed, ClosedAfterTree, Cleaned;
    ghost var loop, log := p.log, p.log;
    calls := [];
    CleanupBegins(loop);
    if |p.answers| == 0 {
      end := NoAnswers;
      return;
    }
    var raised := p.Stop();
    calls := CleanupGrows(loop, calls, log, Entry(StopTree, raised, p.outEnded, p.errEnded));
    if raised {
      end := CallRaised;
      return;
    }
    var gone := false;
    while !gone
      invariant Cleaned(loop, calls, p.log) && NeverClosed(p.log) && Stopping(calls, gone)
      decreases |p.answers|
    {
      if |p.answers| < 2 {
        end := NoAnswers;
        return;
      }
      raised, gone, calls := StopAgain(p, loop, calls);
      if raised {
        end := CallRaised;
        return;
      }
    }
    if |p.answers| == 0 {
      end := NoAnswers;
      return;
    }
    log := p.log;
    raised := p.CloseHandles();
    calls := CleanupGrows(loop, calls, log, Entry(Close, raised, p.outEnded, p.errEnded));
    end := if raised then CallRaised else AllClosed;
  }

  /** One look at the tree, and a stop if it is not gone. */
  method StopAgain(p: OwnedProcess, ghost loop: Log, ghost calls: Log)
    returns (raised: bool, gone: bool, ghost after: Log)
    requires Cleaned(loop, calls, p.log) && NeverClosed(p.log) && Stopping(calls, false) && |p.answers| >= 2
    modifies p`answers, p`log
    ensures Cleaned(loop, after, p.log) && NeverClosed(p.log) && |p.answers| < |old(p.answers)|
    ensures if raised then |after| > 0 && after[|after| - 1].raised else Stopping(after, gone)
  {
    hide CleanupOrder, NeverClosed, ClosedAfterTree, Cleaned;
    ghost var log := p.log;
    var now;
    raised, gone, now := p.IsTreeStopped();
    after := CleanupGrows(loop, calls, log, Entry(TreeStopped(gone, now.pastPipeDeadline), raised, p.outEnded, p.errEnded));
    if !raised && !gone {
      log := p.log;
      raised := p.Stop();
      after := CleanupGrows(loop, after, log, Entry(StopTree, raised, p.outEnded, p.errEnded));
    }
  }

  /** The last call of a cleanup under way: a stop, or the look at the tree that ends the loop. */
  ghost predicate Stopping(calls: Log, gone: bool) {
    |calls| > 0 && var last := calls[|calls| - 1]; !last.raised && if gone then Gone(last) else last.call.StopTree?
  }

  /** The cleanup's calls are in order, and close comes last of all. */
  ghost predicate Cleaned(loop: Log, calls: Log, log: Log) {
    log == loop + calls && CleanupOrder(calls) && (NeverClosed(log) || ClosedAfterTree(log))
  }

  lemma CleanupBegins(loop: Log)
    requires NeverClosed(loop)
    ensures Cleaned(loop, [], loop)
  {
    assert loop + [] == loop;
  }

  ghost method CleanupGrows(loop: Log, calls: Log, log: Log, entry: Entry) returns (after: Log)
    requires Cleaned(loop, calls, log) && NeverClosed(log)
    requires CleanupDue(calls, entry.call)
    ensures after == calls + [entry] && Cleaned(loop, after, log + [entry])
    ensures if entry.call.Close? then ClosedAfterTree(log + [entry]) else NeverClosed(log + [entry])
  {
    after := calls + [entry];
    Cleans(calls, entry);
    LogGrows(log, entry);
    assert log + [entry] == loop + after && (log + [entry])[..|log|] == log;
  }
}
