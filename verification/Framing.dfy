/** The byte framing of native_transport.py: the header block and content block of the "Base
  * Protocol" (Language Server Protocol 3.17, sections "Header Part" and "Content Part"), printed by
  * `_send` and parsed by `read_frame` from a pipe that delivers and accepts arbitrary pieces. */
module Framing {
  import opened Basics

  const MAX_FRAME_BYTES: nat := 16 * 1024 * 1024
  const MAX_HEADER_BYTES: nat := 8192
  /** The interpreter refuses to convert a longer run of digits to an integer. */
  const MAX_INTEGER_DIGITS: nat := 4300

  const CR: Byte := 13
  const LF: Byte := 10
  const COLON: Byte := 58
  const SPACE: Byte := 32
  const CRLF: Bytes := [CR, LF]

  /** "Content-Length" */
  const LENGTH_NAME: Bytes := [67, 111, 110, 116, 101, 110, 116, 45, 76, 101, 110, 103, 116, 104]
  /** "content-length" */
  const LENGTH_KEY: Bytes := [99, 111, 110, 116, 101, 110, 116, 45, 108, 101, 110, 103, 116, 104]

  // --- decimal numbers -------------------------------------------------------------------------

  predicate IsDigit(b: Byte) {
    48 <= b <= 57
  }

  predicate AllDigits(s: Bytes) {
    forall i :: 0 <= i < |s| ==> IsDigit(s[i])
  }

  function Print(n: nat): (s: Bytes)
    ensures AllDigits(s) && s != []
  {
    if n < 10 then [48 + n] else Print(n / 10) + [48 + n % 10]
  }

  function Parse(s: Bytes): nat
    requires AllDigits(s)
  {
    if s == [] then 0 else Parse(s[..|s| - 1]) * 10 + (s[|s| - 1] - 48)
  }

  lemma {:induction false} ParsePrint(n: nat)
    ensures Parse(Print(n)) == n
  {
    if n >= 10 {
      ParsePrint(n / 10);
      assert Print(n)[..|Print(n)| - 1] == Print(n / 10);
    } else {
      assert Parse([]) == 0;
      assert Print(n)[..0] == [];
    }
  }

  lemma {:induction false} PrintLength(n: nat, digits: nat, bound: nat)
    requires n < bound && bound <= Power(digits) && digits > 0
    ensures |Print(n)| <= digits
  {
    if n >= 10 {
      PrintLength(n / 10, digits - 1, Power(digits - 1));
    }
  }

  function Power(digits: nat): (p: nat)
    ensures p >= 1
  {
    if digits == 0 then 1 else 10 * Power(digits - 1)
  }

  // --- the header block ------------------------------------------------------------------------

  /** The first `n` bytes of `s` end with an empty line. */
  predicate EndsHeader(s: Bytes, n: int) {
    4 <= n <= |s| && s[n - 4] == CR && s[n - 3] == LF && s[n - 2] == CR && s[n - 1] == LF
  }

  datatype FrameError = HeaderTooLong | Undecodable | MalformedHeader | InvalidLength | Incomplete

  datatype Header = Header(size: nat) | NoHeader(error: FrameError)

  /** The byte-by-byte header loop of `read_frame`, `n` bytes of `s` having been taken. */
  function TakeHeader(s: Bytes, n: nat): (r: Header)
    requires n <= |s|
    ensures r.Header? ==> n <= r.size <= |s| && r.size <= MAX_HEADER_BYTES + (if n > MAX_HEADER_BYTES then n else 0)
    ensures r.Header? ==> EndsHeader(s, r.size) && forall k :: n <= k < r.size ==> !EndsHeader(s, k)
    ensures r.NoHeader? ==> forall k :: n <= k <= |s| && (k <= n || k <= MAX_HEADER_BYTES) ==> !EndsHeader(s, k)
    ensures r.NoHeader? ==> r.error == if |s| < MAX_HEADER_BYTES && n < MAX_HEADER_BYTES then Incomplete else HeaderTooLong
    decreases |s| - n
  {
    if EndsHeader(s, n) then Header(n)
    else if n >= MAX_HEADER_BYTES then NoHeader(HeaderTooLong)
    else if n == |s| then NoHeader(Incomplete)
    else TakeHeader(s, n + 1)
  }

  predicate LineBreakAt(s: Bytes, k: int) {
    0 <= k <= |s| - 2 && s[k] == CR && s[k + 1] == LF
  }

  /** `str.split` at every CRLF, from the left. */
  function Split(s: Bytes): (lines: seq<Bytes>)
    ensures |lines| > 0
    decreases |s|
  {
    var i := LineEnd(s, 0);
    if i + 2 > |s| then [s] else [s[..i]] + Split(s[i + 2..])
  }

  /** Where the first CRLF at or after `i` starts, or the length of `s` if there is none. */
  function LineEnd(s: Bytes, i: nat): (j: nat)
    requires i <= |s|
    ensures i <= j <= |s|
    ensures LineBreakAt(s, j) || j == |s|
    ensures forall k :: i <= k < j ==> !LineBreakAt(s, k)
    decreases |s| - i
  {
    if i + 2 > |s| then |s|
    else if LineBreakAt(s, i) then i
    else LineEnd(s, i + 1)
  }

  function Join(lines: seq<Bytes>): Bytes
    requires |lines| > 0
  {
    if |lines| == 1 then lines[0] else lines[0] + CRLF + Join(lines[1..])
  }

  lemma JoinCons(line: Bytes, rest: seq<Bytes>)
    requires |rest| > 0
    ensures Join([line] + rest) == line + CRLF + Join(rest)
  {
    assert ([line] + rest)[1..] == rest;
  }

  /** Splitting loses nothing: joining the lines with CRLF gives the header back. */
  lemma {:induction false} JoinSplit(s: Bytes)
    ensures Join(Split(s)) == s
    decreases |s|
  {
    var i := LineEnd(s, 0);
    if i + 2 <= |s| {
      assert s == s[..i] + CRLF + s[i + 2..];
      hide Join;
      JoinSplit(s[i + 2..]);
      JoinCons(s[..i], Split(s[i + 2..]));
    }
  }

  ghost predicate Unbroken(line: Bytes) {
    forall k :: !LineBreakAt(line, k)
  }

  /** No line holds a CRLF of its own. */
  lemma {:induction false} LinesAreUnbroken(s: Bytes)
    ensures forall i :: 0 <= i < |Split(s)| ==> Unbroken(Split(s)[i])
    decreases |s|
  {
    var i := LineEnd(s, 0);
    if i + 2 <= |s| {
      LinesAreUnbroken(s[i + 2..]);
      forall k
        ensures !LineBreakAt(s[..i], k)
      {
        assert LineBreakAt(s[..i], k) ==> LineBreakAt(s, k);
      }
      assert Split(s) == [s[..i]] + Split(s[i + 2..]);
    }
  }

  /** And there is no other way to cut the header into such lines. */
  lemma {:induction false} SplitJoin(lines: seq<Bytes>)
    requires |lines| > 0 && forall i :: 0 <= i < |lines| ==> Unbroken(lines[i])
    ensures Split(Join(lines)) == lines
    decreases |lines|
  {
    var s := Join(lines);
    var n := |lines[0]|;
    assert Unbroken(lines[0]);
    if |lines| == 1 {
      assert forall k :: !LineBreakAt(s, k);
    } else {
      SplitJoin(lines[1..]);
      FirstBreak(lines[0], Join(lines[1..]));
      assert s == lines[0] + CRLF + Join(lines[1..]);
      assert s[..n] == lines[0] && s[n + 2..] == Join(lines[1..]);
    }
  }

  lemma FirstBreak(line: Bytes, rest: Bytes)
    requires Unbroken(line)
    ensures LineEnd(line + CRLF + rest, 0) == |line|
  {
    var s := line + CRLF + rest;
    assert LineBreakAt(s, |line|);
    forall k | 0 <= k < |line|
      ensures !LineBreakAt(s, k)
    {
      assert !LineBreakAt(line, k);
    }
  }

  /** Where the first colon is, or the length of the line if there is none. */
  function ColonAt(line: Bytes, i: nat): (j: nat)
    requires i <= |line|
    ensures i <= j <= |line|
    ensures j < |line| ==> line[j] == COLON
    ensures forall k :: i <= k < j ==> line[k] != COLON
    decreases |line| - i
  {
    if i == |line| || line[i] == COLON then i else ColonAt(line, i + 1)
  }

  function LowerByte(b: Byte): Byte {
    if 65 <= b <= 90 then b + 32 else b
  }

  function Lower(s: Bytes): (r: Bytes)
    ensures |r| == |s| && forall i :: 0 <= i < |s| ==> r[i] == LowerByte(s[i])
  {
    seq(|s|, i requires 0 <= i < |s| => LowerByte(s[i]))
  }

  /** The ASCII characters that `str.strip` removes. */
  predicate IsBlank(b: Byte) {
    9 <= b <= 13 || 28 <= b <= 32
  }

  function Strip(s: Bytes): (r: Bytes)
    ensures r != [] ==> !IsBlank(r[0]) && !IsBlank(r[|r| - 1])
    decreases |s|
  {
    if s == [] then []
    else if IsBlank(s[0]) then Strip(s[1..])
    else if IsBlank(s[|s| - 1]) then Strip(s[..|s| - 1])
    else s
  }

  ghost predicate AllBlank(s: Bytes) {
    forall i :: 0 <= i < |s| ==> IsBlank(s[i])
  }

  /** Only blanks are removed, at both ends. */
  lemma {:induction false} StripTakesBlanks(s: Bytes) returns (before: Bytes, after: Bytes)
    ensures s == before + Strip(s) + after && AllBlank(before) && AllBlank(after)
    decreases |s|
  {
    before, after := [], [];
    if s != [] && IsBlank(s[0]) {
      before, after := StripTakesBlanks(s[1..]);
      before := [s[0]] + before;
    } else if s != [] && IsBlank(s[|s| - 1]) {
      before, after := StripTakesBlanks(s[..|s| - 1]);
      after := after + [s[|s| - 1]];
    }
  }

  predicate HasColon(line: Bytes) {
    ColonAt(line, 0) < |line|
  }

  function KeyOf(line: Bytes): Bytes {
    Lower(line[..ColonAt(line, 0)])
  }

  function ValueOf(line: Bytes): Bytes
    requires HasColon(line)
  {
    Strip(line[ColonAt(line, 0) + 1..])
  }

  datatype Fields = Fields(values: map<Bytes, Bytes>) | BadFields

  function ParseFields(lines: seq<Bytes>): (r: Fields)
  {
    if lines == [] then Fields(map[])
    else
      var line := lines[|lines| - 1];
      match ParseFields(lines[..|lines| - 1])
      case BadFields => BadFields
      case Fields(values) =>
        if !HasColon(line) || KeyOf(line) in values then BadFields
        else Fields(values[KeyOf(line) := ValueOf(line)])
  }

  ghost predicate WellFormedLines(lines: seq<Bytes>) {
    && (forall i :: 0 <= i < |lines| ==> HasColon(lines[i]))
    && (forall i, j :: 0 <= i < j < |lines| ==> KeyOf(lines[i]) != KeyOf(lines[j]))
  }

  /** A header is accepted exactly when every line has a colon and no two names agree up to case;
    * each name then has its own line's value. */
  lemma {:induction false} FieldsAreDistinct(lines: seq<Bytes>)
    ensures ParseFields(lines).Fields? <==> WellFormedLines(lines)
    ensures ParseFields(lines).Fields? ==>
              && (forall i :: 0 <= i < |lines| ==>
                   && KeyOf(lines[i]) in ParseFields(lines).values
                   && ParseFields(lines).values[KeyOf(lines[i])] == ValueOf(lines[i]))
              && (forall key :: key in ParseFields(lines).values ==>
                    exists i :: 0 <= i < |lines| && KeyOf(lines[i]) == key)
  {
    hide HasColon, KeyOf, ValueOf;
    if lines != [] {
      var init, last := lines[..|lines| - 1], lines[|lines| - 1];
      FieldsAreDistinct(init);
      assert forall i :: 0 <= i < |init| ==> init[i] == lines[i];
      if ParseFields(init).Fields? {
        var values := ParseFields(init).values;
        assert WellFormedLines(init);
        if HasColon(last) && KeyOf(last) in values {
          var i :| 0 <= i < |init| && KeyOf(init[i]) == KeyOf(last);
          assert KeyOf(lines[i]) == KeyOf(lines[|lines| - 1]);
        }
        if ParseFields(lines).Fields? {
          forall key | key in ParseFields(lines).values
            ensures exists i :: 0 <= i < |lines| && KeyOf(lines[i]) == key
          {
            if key in values {
              var i :| 0 <= i < |init| && KeyOf(init[i]) == key;
              assert KeyOf(lines[i]) == key;
            } else {
              assert KeyOf(lines[|lines| - 1]) == key;
            }
          }
        }
      } else {
        assert !WellFormedLines(init);
        assert !WellFormedLines(lines);
      }
    }
  }

  datatype Length = Length(count: nat) | NoLength(error: FrameError)

  /** The checks on the text of Content-Length. */
  function CheckLength(text: Bytes): Length {
    if text == [] || !AllDigits(text) then NoLength(InvalidLength)
    else if |text| > MAX_INTEGER_DIGITS then NoLength(Undecodable)
    else if 0 < Parse(text) <= MAX_FRAME_BYTES then Length(Parse(text))
    else NoLength(InvalidLength)
  }

  predicate IsAscii(s: Bytes) {
    forall i :: 0 <= i < |s| ==> s[i] < 128
  }

  function BodyLength(header: Bytes): Length {
    if !IsAscii(header) then NoLength(Undecodable)
    else
      match ParseFields(Split(header))
      case BadFields => NoLength(MalformedHeader)
      case Fields(values) => CheckLength(if LENGTH_KEY in values then values[LENGTH_KEY] else [])
  }

  // --- frames ----------------------------------------------------------------------------------

  datatype Decoded = Frame(body: Bytes, size: nat) | Refused(error: FrameError)

  /** What `read_frame` makes of a byte stream, up to the interpretation of the body as JSON. */
  function Decode(s: Bytes): (r: Decoded)
    ensures r.Frame? ==> 0 < |r.body| <= MAX_FRAME_BYTES && |r.body| + 4 <= r.size <= |s|
    ensures r.Frame? ==> s[r.size - |r.body|..r.size] == r.body
  {
    match TakeHeader(s, 0)
    case NoHeader(error) => Refused(error)
    case Header(n) =>
      match BodyLength(s[..n - 4])
      case NoLength(error) => Refused(error)
      case Length(count) => if |s| - n < count then Refused(Incomplete) else Frame(s[n..n + count], n + count)
  }

  /** The header block `_send` prints for a body. */
  function LengthLine(body: Bytes): Bytes {
    LENGTH_NAME + [COLON, SPACE] + Print(|body|)
  }

  function Encode(body: Bytes): Bytes {
    LengthLine(body) + CRLF + CRLF + body
  }

  predicate Sendable(body: Bytes) {
    0 < |body| <= MAX_FRAME_BYTES
  }

  /** The name is printable ASCII text without a colon. */
  lemma LengthNameText(k: nat)
    requires k < 14
    ensures 33 <= LENGTH_NAME[k] < 128 && LENGTH_NAME[k] != COLON
  {
  }

  /** In lower case it is the key `read_frame` looks up. */
  lemma LengthNameIsTheKey()
    ensures Lower(LENGTH_NAME) == LENGTH_KEY
  {
    hide IsAscii;
    forall k | 0 <= k < 14
      ensures LowerByte(LENGTH_NAME[k]) == LENGTH_KEY[k]
    {
    }
  }

  lemma StripDigits(digits: Bytes)
    requires digits != [] && AllDigits(digits)
    ensures Strip([SPACE] + digits) == digits
  {
    assert ([SPACE] + digits)[1..] == digits;
    assert IsDigit(digits[0]) && IsDigit(digits[|digits| - 1]);
  }

  lemma PrintFits(body: Bytes)
    requires Sendable(body)
    ensures |Print(|body|)| <= 8
  {
    assert Power(8) == 100_000_000 by {
      assert Power(4) == 10_000;
    }
    PrintLength(|body|, 8, 100_000_000);
  }

  lemma ColonIsAt(line: Bytes, i: nat, j: nat)
    requires i <= j < |line| && line[j] == COLON
    requires forall k :: i <= k < j ==> line[k] != COLON
    ensures ColonAt(line, i) == j
    decreases j - i
  {
    if i < j {
      ColonIsAt(line, i + 1, j);
    }
  }

  /** The printed line is short ASCII text without a line break. */
  lemma LengthLineText(body: Bytes)
    requires Sendable(body)
    ensures var line := LengthLine(body); IsAscii(line) && 16 < |line| <= 24
    ensures forall i :: 0 <= i < |LengthLine(body)| ==> LengthLine(body)[i] != CR
  {
    var line, digits := LengthLine(body), Print(|body|);
    PrintFits(body);
    forall i | 0 <= i < |line|
      ensures line[i] != CR && line[i] < 128
    {
      if i < 14 {
        LengthNameText(i);
      } else if i >= 16 {
        assert line[i] == digits[i - 16] && IsDigit(digits[i - 16]);
      }
    }
  }

  lemma FieldsOfLine(name: Bytes, digits: Bytes, line: Bytes)
    requires forall k :: 0 <= k < |name| ==> name[k] != COLON
    requires digits != [] && AllDigits(digits)
    requires line == name + [COLON, SPACE] + digits
    ensures HasColon(line) && KeyOf(line) == Lower(name) && ValueOf(line) == digits
  {
    ColonIsAt(line, 0, |name|);
    assert line[..|name|] == name;
    assert line[|name| + 1..] == [SPACE] + digits;
    StripDigits(digits);
  }

  lemma LengthLineFields(body: Bytes)
    requires Sendable(body)
    ensures var line := LengthLine(body);
            HasColon(line) && KeyOf(line) == LENGTH_KEY && ValueOf(line) == Print(|body|)
  {
    hide HasColon, KeyOf, ValueOf, Lower;
    forall k | 0 <= k < |LENGTH_NAME|
      ensures LENGTH_NAME[k] != COLON
    {
      LengthNameText(k);
    }
    FieldsOfLine(LENGTH_NAME, Print(|body|), LengthLine(body));
    LengthNameIsTheKey();
  }

  /** A line without CRLF is its own only line. */
  lemma SingleLine(line: Bytes)
    requires forall i :: 0 <= i < |line| ==> line[i] != CR
    requires HasColon(line)
    ensures Split(line) == [line]
    ensures ParseFields(Split(line)) == Fields(map[KeyOf(line) := ValueOf(line)])
  {
    assert !LineBreakAt(line, LineEnd(line, 0));
    assert [line][..0] == [];
    assert ParseFields([]) == Fields(map[]);
  }

  lemma BodyLengthOfEncoded(body: Bytes)
    requires Sendable(body)
    ensures BodyLength(LengthLine(body)) == Length(|body|)
  {
    var line := LengthLine(body);
    LengthLineText(body);
    LengthLineFields(body);
    SingleLine(line);
    ParsePrint(|body|);
    PrintFits(body);
    assert CheckLength(Print(|body|)) == Length(|body|);
  }

  /** The header of an encoded frame, complete or cut anywhere after it, is found at its end. */
  lemma HeaderOfEncoded(body: Bytes, s: Bytes)
    requires Sendable(body)
    requires LengthLine(body) + CRLF + CRLF <= s
    ensures TakeHeader(s, 0) == Header(|LengthLine(body)| + 4)
    ensures s[..|LengthLine(body)|] == LengthLine(body)
  {
    var line := LengthLine(body);
    var n := |line| + 4;
    LengthLineText(body);
    var block := line + CRLF + CRLF;
    assert forall i :: 0 <= i < |line| ==> s[i] == block[i] == line[i];
    assert forall i :: |line| <= i < n ==> s[i] == block[i];
    assert EndsHeader(s, n);
    forall k | 0 <= k < n
      ensures !EndsHeader(s, k)
    {
      assert k >= 4 ==> s[k - 4] == line[k - 4];
    }
    var r := TakeHeader(s, 0);
    if r.Header? {
      assert r.size == n;
    }
  }

  /** ROUND TRIP: whatever follows it on the wire, the frame of a body of 1 byte to 16 MiB decodes
    * to that body and uses exactly its own bytes. */
  lemma DecodeEncode(body: Bytes, rest: Bytes)
    requires Sendable(body)
    ensures Decode(Encode(body) + rest) == Frame(body, |Encode(body)|)
  {
    var s := Encode(body) + rest;
    var n := |LengthLine(body)| + 4;
    var block := LengthLine(body) + CRLF + CRLF;
    assert s == block + (body + rest);
    HeaderOfEncoded(body, s);
    BodyLengthOfEncoded(body);
    assert s[..n - 4] == LengthLine(body);
    assert s[n..n + |body|] == body;
  }

  // --- what is accepted, and why the rest is not -----------------------------------------------

  /** The header block, its empty line included, is the first `n` bytes. */
  ghost predicate HeaderEnds(s: Bytes, n: nat) {
    EndsHeader(s, n) && n <= MAX_HEADER_BYTES && forall k :: 0 <= k < n ==> !EndsHeader(s, k)
  }

  ghost predicate NoHeaderEnd(s: Bytes) {
    forall k :: 0 <= k <= |s| && k <= MAX_HEADER_BYTES ==> !EndsHeader(s, k)
  }

  /** Every line has a colon, no two names agree up to case, and the text is that of the length field, empty if there
    * is none. */
  ghost predicate Says(lines: seq<Bytes>, text: Bytes) {
    && WellFormedLines(lines)
    && if exists i :: 0 <= i < |lines| && KeyOf(lines[i]) == LENGTH_KEY then
         exists i :: 0 <= i < |lines| && KeyOf(lines[i]) == LENGTH_KEY && ValueOf(lines[i]) == text
       else text == []
  }

  /** The header is ASCII text that declares a body of this many bytes. */
  ghost predicate Declares(header: Bytes, text: Bytes, count: nat) {
    && IsAscii(header) && Says(Split(header), text)
    && text != [] && |text| <= MAX_INTEGER_DIGITS && AllDigits(text) && count == Parse(text)
    && 0 < count <= MAX_FRAME_BYTES
  }

  lemma SaysIsUnique(lines: seq<Bytes>, a: Bytes, b: Bytes)
    requires Says(lines, a) && Says(lines, b)
    ensures a == b
  {
    hide KeyOf, ValueOf, HasColon;
  }

  lemma FieldsSay(lines: seq<Bytes>)
    requires ParseFields(lines).Fields?
    ensures var values := ParseFields(lines).values; Says(lines, if LENGTH_KEY in values then values[LENGTH_KEY] else [])
  {
    FieldsAreDistinct(lines);
    hide KeyOf, ValueOf, HasColon, ParseFields;
  }

  lemma LengthIsDeclared(header: Bytes, text: Bytes, count: nat)
    ensures Declares(header, text, count) ==> BodyLength(header) == Length(count)
    ensures BodyLength(header) == Length(count) ==> exists t :: Declares(header, t, count)
  {
    FieldsAreDistinct(Split(header));
    if ParseFields(Split(header)).Fields? {
      var values := ParseFields(Split(header)).values;
      var t := if LENGTH_KEY in values then values[LENGTH_KEY] else [];
      FieldsSay(Split(header));
      if Declares(header, text, count) {
        SaysIsUnique(Split(header), t, text);
      }
      hide Says, ParseFields, Split;
      if BodyLength(header) == Length(count) {
        assert Declares(header, t, count);
      }
    }
  }

  /** A frame: its header block ends within the limit and declares the body that follows. */
  ghost predicate Framed(s: Bytes, n: nat, text: Bytes, body: Bytes) {
    && HeaderEnds(s, n) && n + |body| <= |s| && s[n..n + |body|] == body
    && Declares(s[..n - 4], text, |body|)
  }

  /** Exactly the frames are accepted, and no other bytes are taken. */
  lemma DecodeIsExact(s: Bytes, body: Bytes, size: nat)
    ensures Decode(s) == Frame(body, size) <==> exists n: nat, text :: Framed(s, n, text, body) && size == n + |body|
  {
    hide BodyLength, Declares;
    var r := TakeHeader(s, 0);
    if n: nat, text: Bytes :| Framed(s, n, text, body) && size == n + |body| {
      assert r == Header(n);
      LengthIsDeclared(s[..n - 4], text, |body|);
    }
    if Decode(s) == Frame(body, size) {
      var n := r.size;
      assert HeaderEnds(s, n);
      LengthIsDeclared(s[..n - 4], [], |body|);
      var text :| Declares(s[..n - 4], text, |body|);
      assert Framed(s, n, text, body);
    }
  }

  /** What is wrong with a header: it is not ASCII, or its length has more digits than are converted; a line has no
    * colon or a name is repeated; the length is missing, no decimal number, zero or too large. */
  ghost predicate FaultyHeader(header: Bytes, text: Bytes, error: FrameError) {
    match error
    case Undecodable =>
      IsAscii(header) ==> Says(Split(header), text) && AllDigits(text) && |text| > MAX_INTEGER_DIGITS
    case MalformedHeader => IsAscii(header) && !WellFormedLines(Split(header))
    case InvalidLength =>
      && IsAscii(header) && Says(Split(header), text)
      && (text == [] || !AllDigits(text) || (|text| <= MAX_INTEGER_DIGITS && !(0 < Parse(text) <= MAX_FRAME_BYTES)))
    case _ => false
  }

  lemma HeaderFaults(header: Bytes)
    requires BodyLength(header).NoLength?
    ensures exists text :: FaultyHeader(header, text, BodyLength(header).error)
  {
    FieldsAreDistinct(Split(header));
    var text := [];
    if ParseFields(Split(header)).Fields? {
      FieldsSay(Split(header));
      var values := ParseFields(Split(header)).values;
      text := if LENGTH_KEY in values then values[LENGTH_KEY] else [];
    }
    hide Split, Says, WellFormedLines, ParseFields, Parse, AllDigits, IsAscii;
    assert FaultyHeader(header, text, BodyLength(header).error);
  }

  /** Why bytes are refused: no header end within the limit, bytes missing, or a faulty header. The kinds exclude
    * each other. */
  ghost predicate Faulty(s: Bytes, n: nat, text: Bytes, error: FrameError) {
    match error
    case HeaderTooLong => NoHeaderEnd(s) && |s| >= MAX_HEADER_BYTES
    case Incomplete =>
      || (NoHeaderEnd(s) && |s| < MAX_HEADER_BYTES)
      || (HeaderEnds(s, n) && AllDigits(text) && Declares(s[..n - 4], text, Parse(text)) && |s| - n < Parse(text))
    case _ => HeaderEnds(s, n) && FaultyHeader(s[..n - 4], text, error)
  }

  lemma RefusalsAreExact(s: Bytes)
    requires Decode(s).Refused?
    ensures exists n: nat, text :: Faulty(s, n, text, Decode(s).error)
  {
    hide BodyLength, Declares, FaultyHeader, Parse, AllDigits;
    var r := TakeHeader(s, 0);
    if r.NoHeader? {
      assert Faulty(s, 0, [], Decode(s).error);
    } else {
      var n: nat := r.size;
      var header := s[..n - 4];
      assert HeaderEnds(s, n);
      if BodyLength(header).NoLength? {
        HeaderFaults(header);
        NoSuchFault(header);
        var text :| FaultyHeader(header, text, BodyLength(header).error);
        assert Faulty(s, n, text, Decode(s).error);
      } else {
        var count := BodyLength(header).count;
        LengthIsDeclared(header, [], count);
        var text :| Declares(header, text, count);
        DeclaresParsed(header, text, count);
        assert Faulty(s, n, text, Incomplete);
      }
    }
  }

  lemma DeclaresParsed(header: Bytes, text: Bytes, count: nat)
    requires Declares(header, text, count)
    ensures AllDigits(text) && count == Parse(text)
  {
  }

  lemma NoSuchFault(header: Bytes)
    ensures BodyLength(header).NoLength? ==> !BodyLength(header).error.HeaderTooLong? && !BodyLength(header).error.Incomplete?
  {
  }

  /** A frame that is still arriving is never taken for another one, nor for a broken one. */
  lemma DecodeCutFrame(body: Bytes, k: nat)
    requires Sendable(body)
    requires k < |Encode(body)|
    ensures Decode(Encode(body)[..k]) == Refused(Incomplete)
  {
    if k < |LengthLine(body)| + 4 {
      CutInHeader(body, k);
    } else {
      CutInBody(body, k);
    }
  }

  lemma CutInHeader(body: Bytes, k: nat)
    requires Sendable(body) && k < |LengthLine(body)| + 4
    ensures Decode(Encode(body)[..k]) == Refused(Incomplete)
  {
    hide BodyLength;
    var whole, s := Encode(body), Encode(body)[..k];
    LengthLineText(body);
    HeaderOfEncoded(body, whole);
    assert forall m :: 0 <= m <= k ==> EndsHeader(s, m) == EndsHeader(whole, m);
    assert TakeHeader(s, 0).NoHeader?;
  }

  lemma CutInBody(body: Bytes, k: nat)
    requires Sendable(body) && |LengthLine(body)| + 4 <= k < |Encode(body)|
    ensures Decode(Encode(body)[..k]) == Refused(Incomplete)
  {
    var s, line := Encode(body)[..k], LengthLine(body);
    assert Encode(body) == (line + CRLF + CRLF) + body;
    assert s[..|line| + 4] == line + CRLF + CRLF;
    hide TakeHeader, BodyLength, Encode, LengthLine;
    HeaderOfEncoded(body, s);
    BodyLengthOfEncoded(body);
  }

  /** A verdict other than "incomplete" is final: it depends on no byte that comes later. */
  lemma DecodeIsDecidedEarly(s: Bytes, more: Bytes)
    requires Decode(s) != Refused(Incomplete)
    ensures Decode(s + more) == Decode(s)
  {
    hide BodyLength, TakeHeader;
    var t := s + more;
    HeaderIsDecidedEarly(s, more);
    var r := TakeHeader(s, 0);
    if r.Header? {
      assert t[..r.size - 4] == s[..r.size - 4];
      var length := BodyLength(s[..r.size - 4]);
      if length.Length? && |s| - r.size >= length.count {
        assert t[r.size..r.size + length.count] == s[r.size..r.size + length.count];
      }
    }
  }

  lemma HeaderIsDecidedEarly(s: Bytes, more: Bytes)
    requires TakeHeader(s, 0) != NoHeader(Incomplete)
    ensures TakeHeader(s + more, 0) == TakeHeader(s, 0)
  {
    var t := s + more;
    assert forall k :: 0 <= k <= |s| ==> (EndsHeader(t, k) <==> EndsHeader(s, k));
    var r, q := TakeHeader(s, 0), TakeHeader(t, 0);
    if r.Header? && q.Header? {
      assert q.size == r.size;
    }
  }

  // --- sequences of frames ---------------------------------------------------------------------

  function EncodeAll(bodies: seq<Bytes>): Bytes {
    if bodies == [] then [] else Encode(bodies[0]) + EncodeAll(bodies[1..])
  }

  datatype Reading = Reading(bodies: seq<Bytes>, error: FrameError)

  /** What the reader loop obtains from a whole stream: the bodies in order, then why it stopped. */
  function DecodeAll(s: Bytes): Reading
    decreases |s|
  {
    match Decode(s)
    case Refused(error) => Reading([], error)
    case Frame(body, size) =>
      var rest := DecodeAll(s[size..]);
      Reading([body] + rest.bodies, rest.error)
  }

  predicate AllSendable(bodies: seq<Bytes>) {
    forall i :: 0 <= i < |bodies| ==> Sendable(bodies[i])
  }

  /** What may be left on the wire after the last whole frame: nothing, or a cut frame. */
  ghost predicate CutFrame(tail: Bytes) {
    exists body: Bytes :: Sendable(body) && tail < Encode(body)
  }

  lemma DecodeTail(tail: Bytes)
    requires tail == [] || CutFrame(tail)
    ensures Decode(tail) == Refused(Incomplete)
  {
    if tail != [] {
      var body: Bytes :| Sendable(body) && tail < Encode(body);
      DecodeCutFrame(body, |tail|);
      assert tail == Encode(body)[..|tail|];
    }
  }

  /** ROUND TRIP for a whole stream: the reader recovers exactly the bodies sent, in order, even
    * when the stream stops in the middle of a further frame. */
  lemma {:induction false} DecodeAllEncodeAll(bodies: seq<Bytes>, tail: Bytes)
    requires AllSendable(bodies)
    requires tail == [] || CutFrame(tail)
    ensures DecodeAll(EncodeAll(bodies) + tail) == Reading(bodies, Incomplete)
    decreases |bodies|
  {
    hide Decode, Encode, Sendable;
    var s := EncodeAll(bodies) + tail;
    if bodies == [] {
      assert s == tail;
      DecodeTail(tail);
    } else {
      var rest := EncodeAll(bodies[1..]) + tail;
      assert s == Encode(bodies[0]) + rest;
      DecodeEncode(bodies[0], rest);
      assert s[|Encode(bodies[0])|..] == rest;
      DecodeAllEncodeAll(bodies[1..], tail);
      assert [bodies[0]] + bodies[1..] == bodies;
    }
  }
}
