/** The loops of native_transport.py that move frames through pipes: `_PipeReader.readexactly`,
  * `read_frame`, `_read_loop` and `_send`. The process on the other side decides how many bytes each
  * call moves; every loop is proved against `Framing`, which knows only whole streams. */
module FramePipes {
  import opened Basics
  import opened Framing

  // --- reading ---------------------------------------------------------------------------------

  /** One answer of the child's stdout: nothing yet (and whether the root has exited), or a chunk;
    * an empty chunk is end of file. */
  datatype Arrival = NoData(rootExited: bool) | Chunk(data: Bytes)

  /** How a list of arrivals ends: the reader is still waiting, the root was lost, or end of file. */
  datatype End = Waiting | RootLost | EndOfFile

  /** The bytes a list of arrivals delivers before it ends. */
  function Arriving(arrivals: seq<Arrival>): Bytes {
    if arrivals == [] then []
    else
      match arrivals[0]
      case NoData(exited) => if exited then [] else Arriving(arrivals[1..])
      case Chunk(data) => if data == [] then [] else data + Arriving(arrivals[1..])
  }

  function Ending(arrivals: seq<Arrival>): End {
    if arrivals == [] then Waiting
    else
      match arrivals[0]
      case NoData(exited) => if exited then RootLost else Ending(arrivals[1..])
      case Chunk(data) => if data == [] then EndOfFile else Ending(arrivals[1..])
  }

  datatype Piece = Piece(data: Bytes) | NoPiece(end: End)

  datatype FrameRead = Body(body: Bytes) | Invalid(error: FrameError) | Ended(end: End)

  /** What one `read_frame` must return for the bytes still to come and the way they end. */
  function Expected(s: Bytes, end: End): FrameRead {
    match Decode(s)
    case Frame(body, _) => Body(body)
    case Refused(error) =>
      if error != Incomplete then Invalid(error)
      else if end == EndOfFile then Invalid(Incomplete)
      else Ended(end)
  }

  lemma HeaderRefused(s: Bytes, end: End)
    requires TakeHeader(s, 0).NoHeader?
    ensures !Expected(s, end).Body?
  {
  }

  /** What the decoder makes of a stream whose header has been taken. */
  lemma HeaderTaken(s: Bytes, end: End, n: nat)
    requires TakeHeader(s, 0) == Header(n)
    ensures BodyLength(s[..n - 4]).NoLength? ==> Expected(s, end) == Invalid(BodyLength(s[..n - 4]).error)
    ensures BodyLength(s[..n - 4]).Length? ==>
              var count := BodyLength(s[..n - 4]).count;
              Decode(s) == if |s| - n < count then Refused(Incomplete) else Frame(s[n..n + count], n + count)
  {
    hide TakeHeader, BodyLength, Decode;
    LengthErrors(s[..n - 4]);
    DecodeAfterHeader(s, n);
  }

  lemma DecodeAfterHeader(s: Bytes, n: nat)
    requires TakeHeader(s, 0) == Header(n)
    ensures Decode(s) ==
              match BodyLength(s[..n - 4])
              case NoLength(error) => Refused(error)
              case Length(count) => if |s| - n < count then Refused(Incomplete) else Frame(s[n..n + count], n + count)
  {
    hide TakeHeader, BodyLength;
  }

  /** An unusable header is never merely incomplete. */
  lemma LengthErrors(header: Bytes)
    ensures BodyLength(header).NoLength? ==> BodyLength(header).error != Incomplete
  {
    hide Split, ParseFields, IsAscii;
  }

  lemma BodyTaken(s: Bytes, end: End, n: nat, count: nat)
    requires n <= |s|
    requires Decode(s) == if |s| - n < count then Refused(Incomplete) else Frame(s[n..n + count], n + count)
    ensures if |s[n..]| < count then Expected(s, end) == (if end == EndOfFile then Invalid(Incomplete) else Ended(end))
            else Expected(s, end) == Body(s[n..][..count]) && s[n..][count..] == s[Decode(s).size..]
  {
    if |s[n..]| >= count {
      assert s[n..][..count] == s[n..n + count];
      assert s[n..][count..] == s[n + count..];
    }
  }

  class PipeReader {
    var buffer: Bytes
    var arrivals: seq<Arrival>

    /** All the bytes the reader will ever see from here on. */
    ghost function Stream(): Bytes
      reads this
    {
      buffer + Arriving(arrivals)
    }

    constructor (arrivals: seq<Arrival>)
      ensures this.arrivals == arrivals && buffer == []
    {
      this.arrivals := arrivals;
      buffer := [];
    }

    /** `read_stdout`: poll until a chunk comes or the root is gone. */
    method ReadStdout() returns (piece: Piece)
      modifies `arrivals
      ensures piece.Piece? ==>
                if piece.data == [] then Arriving(old(arrivals)) == [] && Ending(old(arrivals)) == EndOfFile
                else
                  && Arriving(old(arrivals)) == piece.data + Arriving(arrivals)
                  && Ending(arrivals) == Ending(old(arrivals))
                  && |arrivals| < |old(arrivals)|
      ensures piece.NoPiece? ==> Arriving(old(arrivals)) == [] && piece.end == Ending(old(arrivals)) != EndOfFile
    {
      while arrivals != []
        invariant Arriving(arrivals) == Arriving(old(arrivals))
        invariant Ending(arrivals) == Ending(old(arrivals))
        invariant |arrivals| <= |old(arrivals)|
        decreases |arrivals|
      {
        var next := arrivals[0];
        if next.Chunk? {
          arrivals := arrivals[1..];
          return Piece(next.data);
        }
        if next.rootExited {
          return NoPiece(RootLost);
        }
        arrivals := arrivals[1..];
      }
      piece := NoPiece(Waiting);
    }

    /** `readexactly`: the next `count` bytes of the stream, however they were cut into chunks. */
    method ReadExactly(count: nat) returns (piece: Piece)
      modifies this
      ensures |old(Stream())| >= count ==>
                && piece == Piece(old(Stream())[..count])
                && Stream() == old(Stream())[count..]
                && Ending(arrivals) == Ending(old(arrivals))
      ensures |old(Stream())| < count ==> piece == NoPiece(Ending(old(arrivals)))
    {
      while |buffer| < count
        invariant Stream() == old(Stream())
        invariant Ending(arrivals) == Ending(old(arrivals))
        decreases |arrivals|
      {
        var next := ReadStdout();
        if next.NoPiece? {
          return next;
        }
        if next.data == [] {
          return NoPiece(EndOfFile);
        }
        buffer := buffer + next.data;
      }
      assert Stream()[..count] == buffer[..count];
      assert Stream()[count..] == buffer[count..] + Arriving(arrivals);
      piece := Piece(buffer[..count]);
      buffer := buffer[count..];
    }

    /** `read_frame`, up to the interpretation of the body as JSON. */
    method ReadFrame() returns (read: FrameRead)
      modifies this
      ensures read == Expected(old(Stream()), Ending(old(arrivals)))
      ensures read.Body? ==>
                && Stream() == old(Stream())[Decode(old(Stream())).size..]
                && Ending(arrivals) == Ending(old(arrivals))
    {
      hide TakeHeader, BodyLength, Decode, Expected;
      ghost var s, end := Stream(), Ending(arrivals);
      var failure, header := ReadHeader();
      if failure.Some? {
        HeaderRefused(s, end);
        return failure.value;
      }
      HeaderTaken(s, end, |header|);
      assert header[..|header| - 4] == s[..|header| - 4];
      var length := HeaderLength(header[..|header| - 4]);
      if length.NoLength? {
        return Invalid(length.error);
      }
      BodyTaken(s, end, |header|, length.count);
      var piece := ReadExactly(length.count);
      if piece.NoPiece? {
        return if piece.end == EndOfFile then Invalid(Incomplete) else Ended(piece.end);
      }
      read := Body(piece.data);
    }

    /** The header loop: one byte at a time until the empty line or the limit. */
    method ReadHeader() returns (failure: Option<FrameRead>, header: Bytes)
      modifies this
      ensures match TakeHeader(old(Stream()), 0)
              case NoHeader(_) =>
                failure == Some(Expected(old(Stream()), Ending(old(arrivals))))
              case Header(size) =>
                && failure == None
                && header == old(Stream())[..size]
                && Stream() == old(Stream())[size..]
                && Ending(arrivals) == Ending(old(arrivals))
    {
      ghost var s, end := Stream(), Ending(arrivals);
      header, failure := [], None;
      while !EndsHeader(header, |header|)
        invariant |header| <= |s| && header == s[..|header|] && Stream() == s[|header|..]
        invariant TakeHeader(s, |header|) == TakeHeader(s, 0)
        invariant Ending(arrivals) == end
        decreases |s| - |header|
      {
        assert !EndsHeader(s, |header|);
        if |header| >= MAX_HEADER_BYTES {
          failure := Some(Invalid(HeaderTooLong));
          return;
        }
        var next := ReadExactly(1);
        if next.NoPiece? {
          failure := Some(if next.end == EndOfFile then Invalid(Incomplete) else Ended(next.end));
          return;
        }
        assert s[..|header| + 1] == s[..|header|] + s[|header|..][..1];
        assert s[|header|..][1..] == s[|header| + 1..];
        header := header + next.data;
      }
      assert EndsHeader(s, |header|);
    }

    /** `_read_loop`: every body in order, then what ended the stream. */
    method ReadAll() returns (bodies: seq<Bytes>, last: FrameRead)
      modifies this
      ensures bodies == DecodeAll(old(Stream())).bodies
      ensures var error := DecodeAll(old(Stream())).error;
              last == if error == Incomplete && Ending(old(arrivals)) != EndOfFile
                      then Ended(Ending(old(arrivals))) else Invalid(error)
    {
      hide Decode;
      ghost var s, end := Stream(), Ending(arrivals);
      bodies := [];
      while true
        invariant Ending(arrivals) == end
        invariant DecodeAll(s).bodies == bodies + DecodeAll(Stream()).bodies
        invariant DecodeAll(s).error == DecodeAll(Stream()).error
        decreases |Stream()|
      {
        var read := ReadFrame();
        if !read.Body? {
          return bodies, read;
        }
        bodies := bodies + [read.body];
      }
    }
  }

  /** The loop of `read_frame` over the header's lines, then the checks on Content-Length. */
  method HeaderLength(header: Bytes) returns (length: Length)
    ensures length == BodyLength(header)
  {
    if !IsAscii(header) {
      return NoLength(Undecodable);
    }
    var lines := Split(header);
    var fields: map<Bytes, Bytes> := map[];
    assert lines[..0] == [];
    for i := 0 to |lines|
      invariant ParseFields(lines[..i]) == Fields(fields)
    {
      var line := lines[i];
      assert lines[..i + 1][..i] == lines[..i];
      if !HasColon(line) || KeyOf(line) in fields {
        BadFieldsStay(lines, i + 1);
        return NoLength(MalformedHeader);
      }
      fields := fields[KeyOf(line) := ValueOf(line)];
    }
    assert lines[..|lines|] == lines;
    length := CheckLength(if LENGTH_KEY in fields then fields[LENGTH_KEY] else []);
  }

  lemma {:induction false} BadFieldsStay(lines: seq<Bytes>, i: nat)
    requires i <= |lines| && ParseFields(lines[..i]).BadFields?
    ensures ParseFields(lines).BadFields?
    decreases |lines|
  {
    if i == |lines| {
      assert lines[..i] == lines;
    } else {
      assert lines[..|lines| - 1][..i] == lines[..i];
      BadFieldsStay(lines[..|lines| - 1], i);
    }
  }

  /** Chunking, stalls and polls cannot be told apart from the bodies read: arrivals that deliver
    * the same sent bodies, whatever their cuts and wherever the stream stops inside a further frame,
    * are read as exactly those bodies. */
  method ReadWhatWasSent(arrivals: seq<Arrival>, ghost sent: seq<Bytes>, ghost tail: Bytes)
    returns (bodies: seq<Bytes>, last: FrameRead)
    requires AllSendable(sent) && (tail == [] || CutFrame(tail))
    requires Arriving(arrivals) == EncodeAll(sent) + tail
    ensures bodies == sent
    ensures last == if Ending(arrivals) == EndOfFile then Invalid(Incomplete) else Ended(Ending(arrivals))
  {
    var reader := new PipeReader(arrivals);
    assert reader.Stream() == EncodeAll(sent) + tail;
    DecodeAllEncodeAll(sent, tail);
    bodies, last := reader.ReadAll();
  }

  // --- writing ---------------------------------------------------------------------------------

  const WRITE_CHUNK: nat := 65536

  /** One answer of the child's stdin to the slice offered: full, a count, an I/O error, or what can
    * end the wait instead: the drain deadline, or the cancellation of the sending task. */
  datatype Answer = Full | Took(count: int) | Broken | DeadlinePassed | SenderCancelled

  datatype Sending = Sent | TooLarge | Closed | Aborted | BadCount | Interrupted

  /** What a pipe that reports `count` has at most taken from the slice offered. */
  function Accepted(slice: Bytes, count: int): Bytes {
    if count <= 0 then [] else if count < |slice| then slice[..count] else slice
  }

  function Offered(frame: Bytes, offset: nat): (slice: Bytes)
    requires offset <= |frame|
  {
    if offset + WRITE_CHUNK <= |frame| then frame[offset..offset + WRITE_CHUNK] else frame[offset..]
  }

  /** The bytes put on the wire from `offset` on, the outcome, and whether every count the loop went
    * by was one the pipe could have taken from the slice offered. */
  datatype Written = Written(bytes: Bytes, sending: Sending, honest: bool)

  function WriteFrom(frame: Bytes, offset: nat, answers: seq<Answer>): Written
    requires offset <= |frame|
    decreases |answers|
  {
    if offset == |frame| then Written([], Sent, true)
    else if answers == [] then Written([], Aborted, true)
    else
      match answers[0]
      case Full => WriteFrom(frame, offset, answers[1..])
      case Took(count) =>
        var taken := Accepted(Offered(frame, offset), count);
        if count <= 0 || count > |frame| - offset then Written(taken, BadCount, count <= 0)
        else
          var rest := WriteFrom(frame, offset + count, answers[1..]);
          Written(taken + rest.bytes, rest.sending, rest.honest && count <= |Offered(frame, offset)|)
      case SenderCancelled => Written([], Interrupted, true)
      case _ => Written([], Aborted, true)
  }

  /** With honest counts the wire gets a prefix of the frame, and all of it exactly when the loop
    * ends by itself. The loop checks a count against the rest of the frame, not against the slice it
    * offered: a count above the slice is believed, and then the frame sent has a hole. */
  lemma {:induction false} WritesAPrefix(frame: Bytes, offset: nat, answers: seq<Answer>)
    requires offset <= |frame|
    ensures var w := WriteFrom(frame, offset, answers);
            && (w.honest ==> w.bytes <= frame[offset..])
            && (w.sending == Sent ==> (w.honest <==> w.bytes == frame[offset..]))
            && (w.honest ==> (w.sending == Sent <==> w.bytes == frame[offset..]))
            && |w.bytes| <= |frame| - offset
            && w.sending !in {TooLarge, Closed}
    decreases |answers|
  {
    if offset < |frame| && answers != [] {
      match answers[0] {
        case Full =>
          WritesAPrefix(frame, offset, answers[1..]);
        case Took(count) =>
          if 0 < count <= |frame| - offset {
            WritesAPrefix(frame, offset + count, answers[1..]);
            PrefixExtends(frame, offset, count, WriteFrom(frame, offset + count, answers[1..]).bytes);
          }
        case _ =>
      }
    }
  }

  /** Such a count can be believed for every frame of more than one slice: a pipe that claims the whole
    * frame at once ends the loop as sent, with nothing on the wire after the first slice. */
  lemma HoleInTheFrame(frame: Bytes)
    requires |frame| > WRITE_CHUNK
    ensures WriteFrom(frame, 0, [Took(|frame|)]) == Written(frame[..WRITE_CHUNK], Sent, false)
  {
    assert Accepted(Offered(frame, 0), |frame|) == frame[..WRITE_CHUNK];
    assert [Took(|frame|)][1..] == [];
  }

  /** And for no other: a frame of one slice is sent whole or not at all. */
  lemma {:induction false} SmallFramesAreHonest(frame: Bytes, offset: nat, answers: seq<Answer>)
    requires offset <= |frame| <= WRITE_CHUNK
    ensures WriteFrom(frame, offset, answers).sending == Sent ==> WriteFrom(frame, offset, answers).honest
    decreases |answers|
  {
    if offset < |frame| && answers != [] {
      match answers[0] {
        case Full =>
          SmallFramesAreHonest(frame, offset, answers[1..]);
        case Took(count) =>
          if 0 < count <= |frame| - offset {
            SmallFramesAreHonest(frame, offset + count, answers[1..]);
          }
        case _ =>
      }
    }
  }

  lemma PrefixExtends(frame: Bytes, offset: nat, count: nat, rest: Bytes)
    requires 0 < count <= |frame| - offset
    requires |rest| <= |frame| - offset - count
    ensures var slice := Offered(frame, offset);
            && |Accepted(slice, count)| <= count
            && (count > |slice| ==> |Accepted(slice, count)| < count)
            && (count <= |slice| ==> Accepted(slice, count) == frame[offset..offset + count])
            && (count <= |slice| && rest <= frame[offset + count..] ==>
                  Accepted(slice, count) + rest <= frame[offset..])
            && (count <= |slice| ==>
                  (rest == frame[offset + count..] <==> Accepted(slice, count) + rest == frame[offset..]))
  {
    var slice := Offered(frame, offset);
    if count <= |slice| {
      assert slice[..count] == frame[offset..offset + count];
      assert frame[offset..] == frame[offset..offset + count] + frame[offset + count..];
      var whole := Accepted(slice, count) + rest;
      assert whole[count..] == rest;
      assert frame[offset..][count..] == frame[offset + count..];
    }
  }

  /** The sending half of the transport: the child's stdin pipe and the failure flag. */
  class FrameWriter {
    /** What the pipe has accepted since the process started. */
    var wire: Bytes
    var failed: bool
    /** The bodies whose `_send` returned. */
    ghost var sent: seq<Bytes>
    /** No count above its slice was believed, and no send was left in the middle of a frame without
      * revoking the transport. */
    ghost var whole: bool

    /** The wire is the frames sent, in order, and after them at most one cut frame, which only a
      * revoked transport leaves behind. */
    ghost predicate Valid()
      reads this
    {
      whole ==>
        && AllSendable(sent)
        && EncodeAll(sent) <= wire
        && var tail := wire[|EncodeAll(sent)|..];
           tail == [] || (failed && CutFrame(tail))
    }

    constructor ()
      ensures Valid() && wire == [] && !failed && sent == [] && whole
    {
      wire, failed, sent, whole := [], false, [], true;
    }

    /** `_send` under the write lock; the answers are those the pipe gives to this send. */
    method Send(body: Bytes, answers: seq<Answer>) returns (sending: Sending)
      requires Valid() && body != []
      modifies this
      ensures Valid()
      ensures |body| > MAX_FRAME_BYTES ==> sending == TooLarge && unchanged(this)
      ensures |body| <= MAX_FRAME_BYTES && old(failed) ==> sending == Closed && unchanged(this)
      ensures |body| <= MAX_FRAME_BYTES && !old(failed) ==>
                var w := WriteFrom(Encode(body), 0, answers);
                && sending == w.sending
                && wire == old(wire) + w.bytes
                && failed == (w.sending == Aborted)
                && (whole <==> old(whole) && w.honest && (w.sending in {Sent, Aborted} || w.bytes == []))
      ensures sent == if sending == Sent then old(sent) + [body] else old(sent)
    {
      if |body| > MAX_FRAME_BYTES {
        return TooLarge;
      }
      if failed {
        return Closed;
      }
      ghost var start, w := wire, WriteFrom(Encode(body), 0, answers);
      sending := WriteFrame(Encode(body), answers);
      WritesAPrefix(Encode(body), 0, answers);
      KeepsWhole(old(sent), start, body, w.bytes);
      failed := sending == Aborted;
      whole := whole && w.honest && (sending in {Sent, Aborted} || w.bytes == []);
      if sending == Sent {
        sent := sent + [body];
      }
    }

    /** The write loop of `_send`: slices of at most 64 KiB until the whole frame is taken. */
    method WriteFrame(frame: Bytes, answers: seq<Answer>) returns (sending: Sending)
      modifies `wire
      ensures var w := WriteFrom(frame, 0, answers); sending == w.sending && wire == old(wire) + w.bytes
    {
      hide Accepted, Offered;
      var offset: nat, i: nat := 0, 0;
      sending := Sent;
      ghost var w := WriteFrom(frame, 0, answers);
      while offset < |frame| && sending == Sent
        invariant offset <= |frame| && i <= |answers|
        invariant sending == Sent ==>
                    var rest := WriteFrom(frame, offset, answers[i..]);
                    old(wire) + w.bytes == wire + rest.bytes && w.sending == rest.sending
        invariant sending != Sent ==> wire == old(wire) + w.bytes && sending == w.sending
        decreases sending == Sent, |answers| - i
      {
        if i == |answers| {
          sending := Aborted;
        } else {
          var answer := answers[i];
          assert answers[i..][1..] == answers[i + 1..];
          i := i + 1;
          match answer {
            case Full =>
            case Took(count) =>
              wire := wire + Accepted(Offered(frame, offset), count);
              if count <= 0 || count > |frame| - offset {
                sending := BadCount;
              } else {
                offset := offset + count;
              }
            case SenderCancelled =>
              sending := Interrupted;
            case _ =>
              sending := Aborted;
          }
        }
      }
    }
  }

  /** Appending a prefix of a frame to whole frames leaves whole frames and at most a cut one. */
  lemma KeepsWhole(sent: seq<Bytes>, wire: Bytes, body: Bytes, bytes: Bytes)
    requires Sendable(body)
    ensures wire == EncodeAll(sent) && bytes == Encode(body)[0..] ==> wire + bytes == EncodeAll(sent + [body])
    ensures wire == EncodeAll(sent) && bytes <= Encode(body)[0..] && bytes != Encode(body)[0..] ==>
              (wire + bytes)[|EncodeAll(sent)|..] == bytes && (bytes == [] || CutFrame(bytes))
  {
    EncodeAllAppend(sent, body);
    assert Encode(body)[0..] == Encode(body);
    if bytes <= Encode(body) && bytes != Encode(body) {
      assert bytes < Encode(body);
    }
  }

  lemma {:induction false} EncodeAllAppend(bodies: seq<Bytes>, body: Bytes)
    ensures EncodeAll(bodies + [body]) == EncodeAll(bodies) + Encode(body)
    decreases |bodies|
  {
    hide Encode;
    if bodies == [] {
      assert [body][1..] == [];
      assert EncodeAll([body]) == Encode(body) + EncodeAll([]);
    } else {
      EncodeAllAppend(bodies[1..], body);
      assert (bodies + [body])[1..] == bodies[1..] + [body];
    }
  }

  /** END TO END: what a valid writer has put on the wire, cut into any arrivals, is read back as
    * exactly the bodies sent. */
  method ReadBack(writer: FrameWriter, arrivals: seq<Arrival>) returns (bodies: seq<Bytes>, last: FrameRead)
    requires writer.Valid() && writer.whole
    requires Arriving(arrivals) == writer.wire
    ensures bodies == writer.sent
    ensures last == if Ending(arrivals) == EndOfFile then Invalid(Incomplete) else Ended(Ending(arrivals))
  {
    ghost var tail := writer.wire[|EncodeAll(writer.sent)|..];
    assert writer.wire == EncodeAll(writer.sent) + tail;
    bodies, last := ReadWhatWasSent(arrivals, writer.sent, tail);
  }
}
