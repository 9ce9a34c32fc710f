/** raw_events.py: a bounded capture that numbers records when they are observed and writes them in
  * that order from a task of its own. Steps are the code between two suspension points. */
module RawEvents {
  import opened Basics

  const MAX_PENDING_BYTES: nat := 32 * 1024 * 1024
  const MAX_PENDING_RECORDS: nat := 4096

  type Payload(==, !new)

  datatype Kind = CaptureStart | Event(payload: Payload) | CaptureEnd

  /** One record as serialized: its number, what it says, and its length in bytes. */
  datatype Line = Line(sequence: nat, kind: Kind, size: nat)

  /** Where the writer task is; `Absent` before it is created, `Exited` once its `finally` has run. */
  datatype Writer = Absent | Waiting | Writing(line: Line) | Draining | Exited

  datatype Recording = Recorded | Unavailable | LimitExceeded

  // --- what holds at every moment --------------------------------------------------------------

  function Lines(queue: seq<Option<Line>>): (lines: seq<Line>)
    ensures |lines| <= |queue|
  {
    if queue == [] then []
    else Lines(queue[..|queue| - 1]) + (match queue[|queue| - 1] case None => [] case Some(line) => [line])
  }

  function TotalSize(lines: seq<Line>): nat {
    if lines == [] then 0 else TotalSize(lines[..|lines| - 1]) + lines[|lines| - 1].size
  }

  function InFlight(writer: Writer): seq<Line> {
    if writer.Writing? then [writer.line] else []
  }

  predicate Running(writer: Writer) {
    writer.Waiting? || writer.Writing?
  }

  /** Records carry the numbers 0, 1, 2, ... in the order in which they were observed. */
  ghost predicate Numbered(accepted: seq<Line>) {
    forall i :: 0 <= i < |accepted| ==> accepted[i].sequence == i
  }

  /** The file is the beginning of what was accepted; and until the writer leaves its loop, what is
    * missing from it is the line being written and the queue, in that order. */
  ghost predicate Lossless(accepted: seq<Line>, file: seq<Line>, writer: Writer, queue: seq<Option<Line>>) {
    && file <= accepted
    && (Running(writer) ==> accepted == file + InFlight(writer) + Lines(queue))
  }

  /** The counters are those of the lines accepted and not yet written, and never above the limits. */
  ghost predicate Counted(writer: Writer, queue: seq<Option<Line>>, records: int, bytes: int) {
    && (Running(writer) ==>
          && records == |InFlight(writer) + Lines(queue)| <= MAX_PENDING_RECORDS
          && bytes == TotalSize(InFlight(writer) + Lines(queue)) <= MAX_PENDING_BYTES)
    && (writer.Exited? ==> records == 0 && bytes == 0)
  }

  ghost predicate EndsWithSentinel(queue: seq<Option<Line>>) {
    queue != [] && queue[|queue| - 1].None?
  }

  /** The sentinel comes once, at the end of the queue, and only when the capture was closed. */
  ghost predicate Sentinel(queue: seq<Option<Line>>, closed: bool) {
    && (forall i :: 0 <= i < |queue| - 1 ==> queue[i].Some?)
    && (EndsWithSentinel(queue) ==> closed)
  }

  ghost predicate Held(accepted: seq<Line>, file: seq<Line>, writer: Writer, queue: seq<Option<Line>>,
                       records: int, bytes: int)
  {
    && Numbered(accepted)
    && Lossless(accepted, file, writer, queue)
    && Counted(writer, queue, records, bytes)
  }

  /** Accepting a line keeps it all, if the limits allow the line. */
  lemma AcceptKeeps(accepted: seq<Line>, file: seq<Line>, writer: Writer, queue: seq<Option<Line>>,
                    records: int, bytes: int, line: Line)
    requires Held(accepted, file, writer, queue, records, bytes) && Running(writer)
    requires line.sequence == |accepted|
    requires bytes + line.size <= MAX_PENDING_BYTES && records < MAX_PENDING_RECORDS
    ensures Held(accepted + [line], file, writer, queue + [Some(line)], records + 1, bytes + line.size)
  {
    QueueGrows(queue, line, InFlight(writer));
    hide Lines, TotalSize;
    assert accepted + [line] == file + InFlight(writer) + Lines(queue + [Some(line)]);
  }

  lemma SentinelKeeps(accepted: seq<Line>, file: seq<Line>, writer: Writer, queue: seq<Option<Line>>,
                      records: int, bytes: int)
    requires Held(accepted, file, writer, queue, records, bytes)
    ensures Held(accepted, file, writer, queue + [None], records, bytes)
  {
    assert (queue + [None])[..|queue|] == queue;
    assert Lines(queue + [None]) == Lines(queue) + [] == Lines(queue);
  }

  lemma NothingQueued()
    ensures Lines([]) == [] && TotalSize([]) == 0
  {
  }

  lemma SentinelIsLast(queue: seq<Option<Line>>, closed: bool)
    requires Sentinel(queue, closed) && queue != []
    ensures Sentinel(queue[1..], closed)
    ensures queue[0].None? ==> closed && queue == [None] && queue[1..] == []
    ensures EndsWithSentinel(queue) && queue[0].Some? ==> EndsWithSentinel(queue[1..])
  {
  }

  /** Taking the first item moves its line from the queue into flight. */
  lemma TakeKeeps(accepted: seq<Line>, file: seq<Line>, queue: seq<Option<Line>>, records: int, bytes: int)
    requires Held(accepted, file, Waiting, queue, records, bytes) && queue != []
    ensures queue[0].Some? ==> Held(accepted, file, Writing(queue[0].value), queue[1..], records, bytes)
    ensures queue[0].None? && |queue| == 1 ==> Held(accepted, file, Draining, [], records, bytes) && file == accepted
  {
    hide Lines, TotalSize;
    FirstLine(queue);
    NothingQueued();
    assert |queue| == 1 ==> queue[1..] == [];
    assert queue[0].Some? ==> [queue[0].value] + Lines(queue[1..]) == [] + Lines(queue);
  }

  /** A finished write takes its line out of the counters and into the file. */
  lemma WriteKeeps(accepted: seq<Line>, file: seq<Line>, line: Line, queue: seq<Option<Line>>,
                   records: int, bytes: int, next: Writer)
    requires Held(accepted, file, Writing(line), queue, records, bytes) && (next.Waiting? || next.Draining?)
    ensures Held(accepted, file + [line], next, queue, records - 1, bytes - line.size)
    ensures Held(accepted, file, Draining, queue, records, bytes)
  {
    OneLess(line, Lines(queue));
    hide Lines, TotalSize;
    assert accepted == file + [line] + Lines(queue);
    assert accepted == file + [line] + ([] + Lines(queue));
  }

  class RawEventCapture {
    var sequence: nat
    var queue: seq<Option<Line>>
    var pendingBytes: int
    var pendingRecords: int
    var writer: Writer
    var failed: bool
    var closed: bool
    /** This capture's lines in the file, and whether a failed write left part of one behind them. */
    var file: seq<Line>
    var torn: bool
    /** How often the owner was told of the failure. */
    var reports: nat
    /** The records that were numbered and not refused, the start line first. */
    ghost var accepted: seq<Line>

    ghost predicate Valid()
      reads this
    {
      && Held(accepted, file, writer, queue, pendingRecords, pendingBytes)
      && Sentinel(queue, closed)
      && (sequence == |accepted| || (failed && sequence >= |accepted|))
      && reports == (if failed then 1 else 0)
      && (torn ==> failed)
      && (!writer.Absent? ==> |accepted| > 0 && accepted[0].kind == CaptureStart)
      && (writer.Absent? && !failed ==> accepted == [] && (!closed ==> queue == []) && pendingBytes == 0 && pendingRecords == 0)
      && (writer.Draining? || writer.Exited? ==> failed || (closed && file == accepted))
      && (closed && !failed && !writer.Absent? ==> accepted != [] && accepted[|accepted| - 1].kind == CaptureEnd)
      && (Running(writer) && closed ==> EndsWithSentinel(queue))
    }

    constructor ()
      ensures Valid() && writer == Absent && !failed && !closed
    {
      sequence, queue, pendingBytes, pendingRecords := 0, [], 0, 0;
      writer, failed, closed, file, torn, reports, accepted := Absent, false, false, [], false, 0, [];
    }

    /** `_fail`: the owner is told once. */
    method Fail()
      modifies `failed, `reports
      ensures failed && reports == old(reports) + (if old(failed) then 0 else 1)
    {
      if !failed {
        failed, reports := true, reports + 1;
      }
    }

    /** `start`, awaited before the child exists, so before any record. */
    method Start(size: nat, openOk: bool, writeOk: bool) returns (started: bool)
      requires Valid() && writer.Absent? && !failed && !closed
      modifies this
      ensures Valid() && started == (openOk && writeOk) && failed == !started
      ensures started ==> writer == Waiting && accepted == file == [Line(0, CaptureStart, size)]
    {
      if !openOk {
        Fail();
        return false;
      }
      var line := Line(sequence, CaptureStart, size);
      sequence := sequence + 1;
      accepted := [line];
      if !writeOk {
        Fail();
        torn := true;
        return false;
      }
      file := file + [line];
      writer := Waiting;
      assert Lines([]) == [] && TotalSize([]) == 0;
      started := true;
    }

    /** `record`: number the record, then accept or refuse it. */
    method Record(kind: Kind, size: nat) returns (r: Recording)
      requires Valid() && (Running(writer) || failed || closed) && !kind.CaptureStart?
      modifies this
      ensures r == Unavailable <==> old(failed || closed)
      ensures r == Unavailable ==> unchanged(this)
      ensures r == Recorded <==>
                && !old(failed || closed)
                && old(pendingBytes) + size <= MAX_PENDING_BYTES && old(pendingRecords) < MAX_PENDING_RECORDS
      ensures r == Recorded ==>
                accepted == old(accepted) + [Line(|old(accepted)|, kind, size)] && queue == old(queue) + [Some(accepted[|old(accepted)|])]
      ensures r != Recorded ==> accepted == old(accepted) && queue == old(queue)
      ensures failed == (old(failed) || r == LimitExceeded)
      ensures writer == old(writer) && file == old(file) && closed == old(closed) && torn == old(torn)
      ensures Valid()
    {
      hide Held;
      if failed || closed {
        return Unavailable;
      }
      var line := Line(sequence, kind, size);
      sequence := sequence + 1;
      if pendingBytes + size > MAX_PENDING_BYTES || pendingRecords >= MAX_PENDING_RECORDS {
        Fail();
        return LimitExceeded;
      }
      AcceptKeeps(accepted, file, writer, queue, pendingRecords, pendingBytes, line);
      pendingBytes, pendingRecords := pendingBytes + size, pendingRecords + 1;
      queue := queue + [Some(line)];
      accepted := accepted + [line];
      r := Recorded;
    }

    /** The writer's `queue.get` returns. */
    method WriterTakes()
      requires Valid() && writer == Waiting && queue != []
      modifies `queue, `writer
      ensures Valid()
      ensures queue == old(queue)[1..]
      ensures writer == match old(queue)[0] case None => Draining case Some(line) => Writing(line)
    {
      var item := queue[0];
      hide Held, Sentinel, EndsWithSentinel, Lines, TotalSize;
      SentinelIsLast(queue, closed);
      TakeKeeps(accepted, file, queue, pendingRecords, pendingBytes);
      queue := queue[1..];
      writer := if item.Some? then Writing(item.value) else Draining;
    }

    /** The write returns; an error may leave part of the line in the file. */
    method WriteReturns(ok: bool)
      requires Valid() && writer.Writing?
      modifies this
      ensures Valid() && accepted == old(accepted) && queue == old(queue) && closed == old(closed)
      ensures file == if ok then old(file) + [old(writer).line] else old(file)
      ensures failed == (old(failed) || !ok)
      ensures writer == if failed then Draining else Waiting
    {
      hide Held;
      var line := writer.line;
      WriteKeeps(accepted, file, line, queue, pendingRecords, pendingBytes, if failed then Draining else Waiting);
      if !ok {
        Fail();
        torn := true;
        writer := Draining;
        return;
      }
      file := file + [line];
      pendingBytes, pendingRecords := pendingBytes - line.size, pendingRecords - 1;
      writer := if failed then Draining else Waiting;
    }

    /** The writer's `finally`: drop what is queued, then close the file. */
    method WriterExits(closedWell: bool)
      requires Valid() && writer == Draining
      modifies this
      ensures Valid() && accepted == old(accepted) && file == old(file) && closed == old(closed)
      ensures writer == Exited && queue == [] && failed == (old(failed) || !closedWell)
    {
      queue, pendingBytes, pendingRecords := [], 0, 0;
      if !closedWell {
        Fail();
      }
      writer := Exited;
    }

    /** The part of `close` before it joins the writer. The first close of a capture that still records queues the end
      * line, or fails when that exceeds a limit; and every first close queues the sentinel. */
    method BeginClose(size: nat)
      requires Valid()
      modifies this
      ensures Valid() && closed && writer == old(writer) && file == old(file) && torn == old(torn)
      ensures var ends := !old(closed) && !old(failed) && !old(writer).Absent?;
              var fits := old(pendingBytes) + size <= MAX_PENDING_BYTES && old(pendingRecords) < MAX_PENDING_RECORDS;
              var line := if ends && fits then [Line(|old(accepted)|, CaptureEnd, size)] else [];
              && failed == (old(failed) || (ends && !fits))
              && accepted == old(accepted) + line
              && queue == old(queue) + (if ends && fits then [Some(line[0])] else []) + (if old(closed) then [] else [None])
    {
      hide Held;
      if !closed {
        if !writer.Absent? && !failed {
          var _ := Record(CaptureEnd, size);
        }
        closed := true;
        SentinelKeeps(accepted, file, writer, queue, pendingRecords, pendingBytes);
        queue := queue + [None];
      }
    }

    /** The end of `close`, once the writer is joined: a normal return proves a complete capture, one
      * that begins with its start line, ends with its end line, and lacks nothing between. */
    method FinishClose() returns (raised: bool)
      requires Valid() && closed && (writer == Exited || writer.Absent?)
      ensures raised == failed
      ensures !raised && writer == Exited ==>
                && file == accepted && !torn && Numbered(file)
                && |file| >= 2 && file[0].kind == CaptureStart && file[|file| - 1].kind == CaptureEnd
    {
      raised := failed;
    }
  }

  /** What can happen to a started capture: a record is observed, or the writer takes a step. */
  datatype Step = Observed(payload: Payload, size: nat) | Taken | Written(ok: bool) | Left(closedWell: bool)

  predicate Enabled(c: RawEventCapture, step: Step)
    reads c
  {
    match step
    case Observed(_, _) => Running(c.writer) || c.failed || c.closed
    case Taken => c.writer == Waiting && c.queue != []
    case Written(_) => c.writer.Writing?
    case Left(_) => c.writer == Draining
  }

  /** The start line, then one line for each payload, in this order. */
  ghost predicate Holds(lines: seq<Line>, payloads: seq<Payload>) {
    && |lines| == |payloads| + 1 && lines[0].kind == CaptureStart
    && forall i :: 0 <= i < |payloads| ==> lines[i + 1].kind == Event(payloads[i])
  }

  /** Any interleaving of records and writer steps; `recorded` grows by what was recorded. */
  method RunSteps(c: RawEventCapture, steps: seq<Step>, before: seq<Payload>) returns (recorded: seq<Payload>)
    requires c.Valid() && (!c.failed && !c.closed ==> Holds(c.accepted, before))
    modifies c
    ensures c.Valid() && c.closed == old(c.closed) && (old(c.failed) ==> c.failed)
    ensures !c.failed && !c.closed ==> Holds(c.accepted, recorded)
    ensures c.closed ==> recorded == before && c.accepted == old(c.accepted)
    ensures c.writer.Absent? <==> old(c.writer.Absent?)
  {
    hide RawEventCapture.Valid, Holds, Running;
    recorded := before;
    for i := 0 to |steps|
      invariant c.Valid() && c.closed == old(c.closed) && (old(c.failed) ==> c.failed)
      invariant !c.failed && !c.closed ==> Holds(c.accepted, recorded)
      invariant c.closed ==> recorded == before && c.accepted == old(c.accepted)
      invariant c.writer.Absent? <==> old(c.writer.Absent?)
    {
      if Enabled(c, steps[i]) {
        recorded := RunStep(c, steps[i], recorded);
      }
    }
  }

  method RunStep(c: RawEventCapture, step: Step, before: seq<Payload>) returns (recorded: seq<Payload>)
    requires c.Valid() && Enabled(c, step) && (!c.failed && !c.closed ==> Holds(c.accepted, before))
    modifies c
    ensures c.Valid() && c.closed == old(c.closed) && (old(c.failed) ==> c.failed)
    ensures !c.failed && !c.closed ==> Holds(c.accepted, recorded)
    ensures c.closed ==> recorded == before && c.accepted == old(c.accepted)
    ensures c.writer.Absent? <==> old(c.writer.Absent?)
  {
    hide RawEventCapture.Valid;
    recorded := before;
    match step {
      case Observed(payload, size) =>
        var r := c.Record(Event(payload), size);
        if r == Recorded {
          recorded := recorded + [payload];
        }
      case Taken => c.WriterTakes();
      case Written(ok) => c.WriteReturns(ok);
      case Left(closedWell) => c.WriterExits(closedWell);
    }
  }

  lemma NoEndYet(lines: seq<Line>, payloads: seq<Payload>)
    requires Holds(lines, payloads)
    ensures lines[|lines| - 1].kind != CaptureEnd
  {
    if |payloads| > 0 {
      var i := |payloads| - 1;
      assert lines[i + 1].kind == Event(payloads[i]);
    }
  }

  /** A whole capture: started, used, closed, and its writer joined, if the steps lead there. If `close` then
    * returns normally, the file holds the start line, every payload that was recorded, in the order in which
    * they were observed and numbered 1, 2, 3, ..., and the end line, and nothing else. */
  method CaptureAll(startSize: nat, openOk: bool, writeOk: bool, steps: seq<Step>, endSize: nat, last: seq<Step>)
    returns (file: seq<Line>, recorded: seq<Payload>, joined: bool, raised: bool)
    ensures raised ==> joined
    ensures joined && !raised ==>
              && openOk && writeOk && Numbered(file) && |file| == |recorded| + 2
              && Holds(file[..|file| - 1], recorded) && file[|file| - 1].kind == CaptureEnd
  {
    var c := new RawEventCapture();
    var started := c.Start(startSize, openOk, writeOk);
    recorded := RunSteps(c, steps, []);
    ghost var accepted := c.accepted;
    c.BeginClose(endSize);
    ghost var ended := c.accepted;
    var _ := RunSteps(c, last, recorded);
    file, joined, raised := c.file, c.writer == Exited || c.writer.Absent?, false;
    if joined {
      raised := c.FinishClose();
      if !raised {
        NoEndYet(accepted, recorded);
        assert c.file == ended == accepted + [Line(|accepted|, CaptureEnd, endSize)];
        assert file[..|file| - 1] == accepted;
      }
    }
  }

  lemma QueueGrows(queue: seq<Option<Line>>, line: Line, before: seq<Line>)
    ensures Lines(queue + [Some(line)]) == Lines(queue) + [line]
    ensures before + Lines(queue + [Some(line)]) == before + Lines(queue) + [line]
    ensures TotalSize(before + Lines(queue + [Some(line)])) == TotalSize(before + Lines(queue)) + line.size
  {
    assert (queue + [Some(line)])[..|queue|] == queue;
    var all := before + Lines(queue) + [line];
    assert before + Lines(queue + [Some(line)]) == all;
    assert all[..|all| - 1] == before + Lines(queue);
  }

  lemma {:induction false} FirstLine(queue: seq<Option<Line>>)
    requires queue != []
    ensures Lines(queue) == (match queue[0] case None => [] case Some(line) => [line]) + Lines(queue[1..])
    decreases |queue|
  {
    hide TotalSize;
    var init := queue[..|queue| - 1];
    if |queue| == 1 {
      assert init == [] && queue[1..] == [];
    } else {
      FirstLine(init);
      assert queue[1..][..|queue| - 2] == init[1..];
    }
  }

  lemma {:induction false} OneLess(line: Line, rest: seq<Line>)
    ensures TotalSize([line] + rest) == line.size + TotalSize(rest)
    ensures TotalSize([] + rest) == TotalSize(rest) && |[line] + rest| == |[] + rest| + 1
    decreases |rest|
  {
    assert [] + rest == rest;
    if rest == [] {
      assert [line] + rest == [line];
      assert [line][..0] == [];
    } else {
      OneLess(line, rest[..|rest| - 1]);
      assert ([line] + rest)[..|rest|] == [line] + rest[..|rest| - 1];
    }
  }
}
