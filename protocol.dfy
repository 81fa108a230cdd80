/**
 * MCP stdio framing: a header block of `Name: value` lines ended by an
 * empty line, carrying a `Content-Length`, then exactly that many bytes of
 * JSON body; plus the two JSON-RPC 2.0 response envelopes.
 *
 * The stream is a byte sequence read from a position. Header lines are read
 * one character per byte. The JSON parser and serialiser are parameters.
 */
module Protocol {
  import opened Wrappers
  import opened Text
  import opened Json

  newtype byte = b: int | 0 <= b < 256

  const LF: byte := 10
  /** The line break the headers are written with. */
  const CRLF: seq<byte> := [13, 10]
  const USIZE_MAX: nat := 0xFFFF_FFFF_FFFF_FFFF

  const EOF_IN_HEADERS := "EOF while reading MCP headers"
  const MISSING_LENGTH := "Missing Content-Length header in MCP message"
  const SHORT_BODY := "failed to fill whole buffer"
  const BAD_LENGTH := "Invalid Content-Length header: "
  const BAD_BODY := "Invalid JSON body in MCP message: "

  /** `serde_json::from_slice`: a value, or the parser's error text. */
  type Parser = seq<byte> -> Result<Json, string>

  /** A header line as text: one character per byte. */
  function Chars(bs: seq<byte>): (s: string)
    ensures |s| == |bs|
  {
    seq(|bs|, i requires 0 <= i < |bs| => (bs[i] as int) as char)
  }

  predicate Latin1(s: string) {
    forall i :: 0 <= i < |s| ==> s[i] as int < 256
  }

  /** The low byte of each character: the bytes of a text whose characters are all below 256. */
  function Bytes(s: string): (bs: seq<byte>)
    ensures |bs| == |s|
  {
    seq(|s|, i requires 0 <= i < |s| => ((s[i] as int) % 256) as byte)
  }

  /** A header line's text as written: one byte per character, no line break inside, not ending in '\r'. */
  predicate HeaderText(text: string) {
    Latin1(text) && '\n' !in text && text != [] && text[|text| - 1] != '\r'
  }

  /** The input holds the line `text` followed by CRLF from `pos` up to `stop`. */
  predicate LineAt(input: seq<byte>, pos: nat, stop: nat, text: string) {
    stop == pos + |text| + 2 && stop <= |input| && input[pos..stop] == Bytes(text) + CRLF
  }

  /** Where `read_line` from `pos` stops: just after the first '\n', or at the end of the input. */
  function LineEnd(input: seq<byte>, pos: nat): (e: nat)
    requires pos <= |input|
    decreases |input| - pos
    ensures pos <= e <= |input|
    ensures pos < |input| ==> pos < e
  {
    if pos == |input| then pos
    else if input[pos] == LF then pos + 1
    else LineEnd(input, pos + 1)
  }

  /** `trim_end_matches(['\r', '\n'])`. */
  function TrimLineEnd(s: string): (r: string)
    ensures r <= s
    ensures r == [] || (r[|r| - 1] != '\r' && r[|r| - 1] != '\n')
  {
    if s != [] && (s[|s| - 1] == '\r' || s[|s| - 1] == '\n') then TrimLineEnd(s[..|s| - 1]) else s
  }

  function AsciiLower(c: char): char {
    if 'A' <= c <= 'Z' then ((c as int) + 32) as char else c
  }

  /** `str::eq_ignore_ascii_case`. */
  predicate EqIgnoreAsciiCase(a: string, b: string) {
    |a| == |b| && forall i :: 0 <= i < |a| ==> AsciiLower(a[i]) == AsciiLower(b[i])
  }

  /**
   * What one non-empty header line says about the body length: nothing
   * (another header, or no ':'), a length, or the error for a bad value.
   */
  function ContentLengthOf(line: string): (r: Option<Result<nat, string>>)
    ensures r.Some? <==> SplitOnce(line, ":").Some? && EqIgnoreAsciiCase(SplitOnce(line, ":").value.0, "Content-Length")
    ensures r.Some? ==> (r.value.Ok? <==> ParseUnsigned(Trim(SplitOnce(line, ":").value.1), USIZE_MAX).Ok?)
    ensures r.Some? && r.value.Ok? ==>
              r.value.value == ParseUnsigned(Trim(SplitOnce(line, ":").value.1), USIZE_MAX).value
              && r.value.value <= USIZE_MAX
    ensures r.Some? && r.value.Err? ==>
              r.value.error == BAD_LENGTH + IntErrorMessage(ParseUnsigned(Trim(SplitOnce(line, ":").value.1), USIZE_MAX).error)
  {
    match SplitOnce(line, ":")
    case None => None
    case Some((name, value)) =>
      if !EqIgnoreAsciiCase(name, "Content-Length") then None
      else match ParseUnsigned(Trim(value), USIZE_MAX)
        case Ok(n) =>
          assert n <= USIZE_MAX by { ParseUnsignedAtMost(Trim(value), USIZE_MAX); }
          Some(Ok(n))
        case Err(kind) => Some(Err(BAD_LENGTH + IntErrorMessage(kind)))
  }

  /** The header name is matched whatever its letter case, and a value in range is read as written. */
  lemma LengthInAnyCase(name: string, value: string, n: nat)
    requires ':' !in name && EqIgnoreAsciiCase(name, "Content-Length")
    requires ParseUnsigned(Trim(value), USIZE_MAX) == Ok(n)
    ensures ContentLengthOf(name + ":" + value) == Some(Ok(n))
  {
    SplitOnceAtChar(name, ':', value);
  }

  lemma {:induction false} ParseDigitsAtMost(d: string, acc: nat, max: nat)
    requires acc <= max
    ensures ParseDigits(d, acc, max).Ok? ==> ParseDigits(d, acc, max).value <= max
  {
    if d != [] && IsDigit(d[0]) && !(acc * 10 > max || acc * 10 + DigitValue(d[0]) > max) {
      ParseDigitsAtMost(d[1..], acc * 10 + DigitValue(d[0]), max);
    }
  }

  lemma ParseUnsignedAtMost(s: string, max: nat)
    ensures ParseUnsigned(s, max).Ok? ==> ParseUnsigned(s, max).value <= max
  {
    if s != [] {
      ParseDigitsAtMost(if s[0] == '+' then s[1..] else s, 0, max);
    }
  }

  /** The latest length after one header line: a `Content-Length` replaces it, a bad one is an error, any other line keeps it. */
  function HeaderStep(header: Option<Result<nat, string>>, len: Option<nat>): (r: Result<Option<nat>, string>)
    ensures header.None? ==> r == Ok(len)
    ensures header.Some? && header.value.Ok? ==> r == Ok(Some(header.value.value))
    ensures header.Some? && header.value.Err? ==> r == Err(header.value.error)
  {
    match header
    case None => Ok(len)
    case Some(Ok(n)) => Ok(Some(n))
    case Some(Err(e)) => Err(e)
  }

  /** The outcome of one `read_mcp_message` call and where the stream is left. */
  datatype Read = Read(result: Result<Option<Json>, string>, next: nat)

  /** The body once the headers are over: exactly `len` bytes, parsed as JSON. */
  function ReadBody(input: seq<byte>, pos: nat, len: Option<nat>, parse: Parser): (r: Read)
    requires pos <= |input|
    ensures pos <= r.next <= |input|
    ensures len.None? ==> r == Read(Err(MISSING_LENGTH), pos)
    ensures len.Some? && |input| - pos < len.value ==> r == Read(Err(SHORT_BODY), |input|)
    ensures len.Some? && len.value <= |input| - pos ==>
              && r.next == pos + len.value
              && (r.result.Ok? <==> parse(input[pos..pos + len.value]).Ok?)
              && (r.result.Err? ==> r.result.error == BAD_BODY + parse(input[pos..pos + len.value]).error)
    ensures r.result.Ok? ==> len.Some? && r.result.value.Some? && r.next == pos + len.value
                             && parse(input[pos..r.next]) == Ok(r.result.value.value)
  {
    match len
    case None => Read(Err(MISSING_LENGTH), pos)
    case Some(n) =>
      if |input| - pos < n then Read(Err(SHORT_BODY), |input|)
      else match parse(input[pos..pos + n])
        case Ok(v) => Read(Ok(Some(v)), pos + n)
        case Err(e) => Read(Err(BAD_BODY + e), pos + n)
  }

  /** How the header block ended: at an empty line, at the end of input, or at a bad length. */
  datatype HeaderEnd = Blank(len: Option<nat>) | Eof(len: Option<nat>) | BadLength(message: string)

  /** The end of the header block and the position just after the last line read. */
  datatype Scan = Scan(end: HeaderEnd, next: nat)

  /**
   * The header loop from `pos`, with `len` the latest `Content-Length`
   * seen so far: at the end of input it stops, otherwise it reads a line.
   */
  function ScanHeaders(input: seq<byte>, pos: nat, len: Option<nat>): (r: Scan)
    requires pos <= |input|
    decreases |input| - pos, 1
    ensures pos <= r.next <= |input|
    ensures r.end.Eof? ==> r.next == |input|
  {
    if pos == |input| then Scan(Eof(len), pos) else ScanLine(input, pos, len)
  }

  /**
   * One turn of the header loop: the line up to and including its '\n' is
   * read; empty, it ends the headers; a bad length stops the loop; any
   * other line updates the latest length and the loop goes on.
   */
  function ScanLine(input: seq<byte>, pos: nat, len: Option<nat>): (r: Scan)
    requires pos < |input|
    decreases |input| - pos, 0
    ensures pos < r.next <= |input|
    ensures r.end.Eof? ==> r.next == |input|
  {
    var next := LineEnd(input, pos);
    var line := TrimLineEnd(Chars(input[pos..next]));
    if line == [] then Scan(Blank(len), next)
    else match HeaderStep(ContentLengthOf(line), len)
      case Err(e) => Scan(BadLength(e), next)
      case Ok(latest) => ScanHeaders(input, next, latest)
  }

  /** `read_mcp_message` on the stream positioned at `pos`: the header block, then the body. */
  function ReadMessage(input: seq<byte>, pos: nat, parse: Parser): (r: Read)
    requires pos <= |input|
    ensures pos <= r.next <= |input|
  {
    var scan := ScanHeaders(input, pos, None);
    match scan.end
    case Eof(len) => Read(if len.None? then Ok(None) else Err(EOF_IN_HEADERS), scan.next)
    case BadLength(message) => Read(Err(message), scan.next)
    case Blank(len) => ReadBody(input, scan.next, len, parse)
  }

  /** A `BufRead` over a fixed byte stream: what has been consumed is everything before `pos`. */
  class Reader {
    const input: seq<byte>
    var pos: nat

    ghost predicate Valid()
      reads this
    {
      pos <= |input|
    }

    constructor(input: seq<byte>)
      ensures this.input == input && pos == 0 && Valid()
    {
      this.input := input;
      pos := 0;
    }

    /** `read_line`: the bytes up to and including the next '\n'; none at end of input. */
    method ReadLine() returns (line: seq<byte>)
      requires Valid()
      modifies this
      ensures Valid()
      ensures pos == LineEnd(input, old(pos)) && line == input[old(pos)..pos]
    {
      var end := LineEnd(input, pos);
      line := input[pos..end];
      pos := end;
    }

    /** `read_exact`: exactly `n` bytes, or an error that leaves the stream drained. */
    method ReadExact(n: nat) returns (r: Result<seq<byte>, string>)
      requires Valid()
      modifies this
      ensures Valid()
      ensures |input| - old(pos) < n ==> r == Err(SHORT_BODY) && pos == |input|
      ensures n <= |input| - old(pos) ==> r == Ok(input[old(pos)..old(pos) + n]) && pos == old(pos) + n
    {
      if |input| - pos < n {
        pos := |input|;
        return Err(SHORT_BODY);
      }
      r := Ok(input[pos..pos + n]);
      pos := pos + n;
    }
  }

  /** The header loop of `read_mcp_message`: lines until an empty one, remembering the latest length. */
  method ReadHeaders(reader: Reader) returns (end: HeaderEnd)
    requires reader.Valid()
    modifies reader
    ensures reader.Valid()
    ensures Scan(end, reader.pos) == ScanHeaders(reader.input, old(reader.pos), None)
  {
    ghost var goal := ScanHeaders(reader.input, reader.pos, None);
    var contentLength: Option<nat> := None;
    while true
      invariant reader.Valid()
      invariant ScanHeaders(reader.input, reader.pos, contentLength) == goal
      decreases |reader.input| - reader.pos
    {
      ghost var start := reader.pos;
      var bytes := reader.ReadLine();
      if |bytes| == 0 {
        return Eof(contentLength);
      }
      assert ScanHeaders(reader.input, start, contentLength) == ScanLine(reader.input, start, contentLength);
      var line := TrimLineEnd(Chars(bytes));
      if line == [] {
        return Blank(contentLength);
      }
      var header := ContentLengthOf(line);
      if header.Some? {
        if header.value.Err? {
          return BadLength(header.value.error);
        }
        contentLength := Some(header.value.value);
      }
    }
  }

  /** `read_mcp_message`: the headers, then exactly the announced number of body bytes, parsed as JSON. */
  method ReadMcpMessage(reader: Reader, parse: Parser) returns (r: Result<Option<Json>, string>)
    requires reader.Valid()
    modifies reader
    ensures reader.Valid()
    ensures Read(r, reader.pos) == ReadMessage(reader.input, old(reader.pos), parse)
  {
    var end := ReadHeaders(reader);
    match end
    case Eof(len) =>
      r := if len.None? then Ok(None) else Err(EOF_IN_HEADERS);
    case BadLength(message) =>
      r := Err(message);
    case Blank(len) =>
      r := ReadMessageBody(reader, len, parse);
  }

  /** The body part of `read_mcp_message`, once the empty line has been read. */
  method ReadMessageBody(reader: Reader, len: Option<nat>, parse: Parser) returns (r: Result<Option<Json>, string>)
    requires reader.Valid()
    modifies reader
    ensures reader.Valid()
    ensures Read(r, reader.pos) == ReadBody(reader.input, old(reader.pos), len, parse)
  {
    if len.None? {
      return Err(MISSING_LENGTH);
    }
    var body := reader.ReadExact(len.value);
    if body.Err? {
      return Err(body.error);
    }
    var value := parse(body.value);
    if value.Err? {
      return Err(BAD_BODY + value.error);
    }
    return Ok(Some(value.value));
  }

  // ---------------------------------------------------------------- writing

  /** The header line announcing a body of `n` bytes, without its line break. */
  function LengthLine(n: nat): (s: string)
    ensures HeaderText(s)
  {
    var s := "Content-Length: " + Decimal(n);
    assert forall i :: 16 <= i < |s| ==> s[i] == Decimal(n)[i - 16];
    s
  }

  /** The bytes `write_mcp_message` emits for a serialised body. */
  function EncodeFrame(body: seq<byte>): (frame: seq<byte>)
    ensures |frame| > |body| && frame[|frame| - |body|..] == body
  {
    Frame(LengthLine(|body|), body)
  }

  /** A frame whose header block is the one header line `line`. */
  function Frame(line: string, body: seq<byte>): seq<byte> {
    Bytes(line) + CRLF + CRLF + body
  }

  /** A `Write` sink: everything written so far. */
  class Writer {
    var output: seq<byte>

    constructor()
      ensures output == []
    {
      output := [];
    }

    /** `write_mcp_message`: the header block, then the serialised body; flushing changes nothing here. */
    method WriteMcpMessage(value: Json, serialize: Json -> seq<byte>)
      modifies this
      ensures output == old(output) + EncodeFrame(serialize(value))
    {
      var body := serialize(value);
      var header := Bytes(LengthLine(|body|)) + CRLF + CRLF;
      output := output + header;
      output := output + body;
    }
  }

  // ---------------------------------------------------------------- framing properties

  /** A header line `text` followed by CRLF is read as one line whose trimmed text is `text`. */
  lemma ReadLineOf(input: seq<byte>, pos: nat, stop: nat, text: string)
    requires Latin1(text) && '\n' !in text && (text == [] || text[|text| - 1] != '\r')
    requires LineAt(input, pos, stop, text)
    ensures LineEnd(input, pos) == stop
    ensures TrimLineEnd(Chars(input[pos..stop])) == text
  {
    LineEndOfText(input, pos, stop, text);
    CharsOfLine(text);
    TrimCrLf(text);
  }

  lemma LineEndOfText(input: seq<byte>, pos: nat, stop: nat, text: string)
    requires Latin1(text) && '\n' !in text
    requires LineAt(input, pos, stop, text)
    ensures LineEnd(input, pos) == stop
  {
    var line := Bytes(text) + CRLF;
    assert input[stop - 1] == LF by {
      assert input[pos..stop][|text| + 1] == input[stop - 1];
    }
    forall j | pos <= j < stop - 1
      ensures input[j] != LF
    {
      assert input[pos..stop][j - pos] == input[j];
      if j - pos < |text| {
        assert line[j - pos] == Bytes(text)[j - pos];
        assert text[j - pos] in text;
      }
    }
    LineEndAt(input, pos, stop);
  }

  lemma CharsOfLine(text: string)
    requires Latin1(text)
    ensures Chars(Bytes(text) + CRLF) == text + "\r\n"
  {
    var line := Bytes(text) + CRLF;
    forall i | 0 <= i < |line|
      ensures Chars(line)[i] == (text + "\r\n")[i]
    {
      if i < |text| {
        assert line[i] == Bytes(text)[i];
      }
    }
  }

  lemma TrimCrLf(text: string)
    requires '\n' !in text && (text == [] || text[|text| - 1] != '\r')
    ensures TrimLineEnd(text + "\r\n") == text
  {
    var line := text + "\r\n";
    assert line[..|text| + 1] == text + "\r";
    assert (text + "\r")[..|text|] == text;
    assert TrimLineEnd(line) == TrimLineEnd(text + "\r");
    assert TrimLineEnd(text + "\r") == TrimLineEnd(text);
    assert text == [] || text[|text| - 1] != '\n' by {
      if text != [] {
        assert text[|text| - 1] in text;
      }
    }
  }

  lemma {:induction false} LineEndAt(input: seq<byte>, pos: nat, e: nat)
    requires pos < e <= |input| && input[e - 1] == LF
    requires forall j :: pos <= j < e - 1 ==> input[j] != LF
    decreases e - pos
    ensures LineEnd(input, pos) == e
  {
    if input[pos] != LF {
      LineEndAt(input, pos + 1, e);
    }
  }

  /** One header line in the loop: a `Content-Length` sets the length, a bad one stops, any other is skipped. */
  lemma ScanTextAt(input: seq<byte>, pos: nat, stop: nat, text: string, len: Option<nat>)
    requires pos < stop <= |input| && LineEnd(input, pos) == stop
    requires TrimLineEnd(Chars(input[pos..stop])) == text && text != []
    ensures ScanHeaders(input, pos, len)
         == if HeaderStep(ContentLengthOf(text), len).Err? then Scan(BadLength(HeaderStep(ContentLengthOf(text), len).error), stop)
            else ScanHeaders(input, stop, HeaderStep(ContentLengthOf(text), len).value)
  {
    assert ScanHeaders(input, pos, len) == ScanLine(input, pos, len);
  }

  /** The empty line ends the headers. */
  lemma ScanBlankLine(input: seq<byte>, pos: nat, stop: nat, len: Option<nat>)
    requires stop == pos + 2 <= |input| && input[pos..stop] == CRLF
    ensures ScanHeaders(input, pos, len) == Scan(Blank(len), stop)
  {
    assert Bytes([]) + CRLF == CRLF;
    ReadLineOf(input, pos, stop, []);
    assert ScanHeaders(input, pos, len) == ScanLine(input, pos, len);
  }

  /** A header line `text` followed by CRLF, read inside the header loop. */
  lemma ScanTextLine(input: seq<byte>, pos: nat, stop: nat, text: string, len: Option<nat>)
    requires HeaderText(text) && LineAt(input, pos, stop, text)
    ensures ScanHeaders(input, pos, len)
         == if HeaderStep(ContentLengthOf(text), len).Err? then Scan(BadLength(HeaderStep(ContentLengthOf(text), len).error), stop)
            else ScanHeaders(input, stop, HeaderStep(ContentLengthOf(text), len).value)
  {
    ReadLineOf(input, pos, stop, text);
    ScanTextAt(input, pos, stop, text, len);
  }

  /** A `Content-Length` line sets the length, whatever was seen before. */
  lemma ScanLengthLine(input: seq<byte>, pos: nat, stop: nat, text: string, n: nat, len: Option<nat>)
    requires HeaderText(text) && LineAt(input, pos, stop, text)
    requires ContentLengthOf(text) == Some(Ok(n))
    ensures ScanHeaders(input, pos, len) == ScanHeaders(input, stop, Some(n))
  {
    ScanTextLine(input, pos, stop, text, len);
  }

  /** Any other header line is skipped. */
  lemma ScanOtherLine(input: seq<byte>, pos: nat, stop: nat, text: string, len: Option<nat>)
    requires HeaderText(text) && LineAt(input, pos, stop, text)
    requires ContentLengthOf(text).None?
    ensures ScanHeaders(input, pos, len) == ScanHeaders(input, stop, len)
  {
    ScanTextLine(input, pos, stop, text, len);
  }

  /** The length header of a frame announces the length of its body. */
  lemma LengthLineAnnounces(n: nat)
    requires n <= USIZE_MAX
    ensures ContentLengthOf(LengthLine(n)) == Some(Ok(n))
  {
    var digits := Decimal(n);
    SplitLengthLine(n);
    assert EqIgnoreAsciiCase("Content-Length", "Content-Length");
    TrimSpaceDigits(digits);
    ParseDecimal(n, USIZE_MAX);
  }

  lemma SplitLengthLine(n: nat)
    ensures SplitOnce(LengthLine(n), ":") == Some(("Content-Length", " " + Decimal(n)))
  {
    var line := LengthLine(n);
    var digits := Decimal(n);
    assert line == "Content-Length" + ":" + (" " + digits);
    forall j | 0 <= j < |"Content-Length"|
      ensures !OccursAt("Content-Length" + ":" + (" " + digits), ":", j)
    {
      assert line[j..j + 1][0] == line[j] == "Content-Length"[j];
    }
    SplitOnceAt("Content-Length", ":", " " + digits);
  }

  lemma TrimSpaceDigits(digits: string)
    requires digits != [] && AllDigits(digits)
    ensures Trim(" " + digits) == digits
  {
    assert !IsWhitespace(digits[0]) && !IsWhitespace(digits[|digits| - 1]);
    assert TrimStart(" " + digits) == digits by {
      assert (" " + digits)[1..] == digits;
    }
    TrimNoop(digits);
  }

  lemma Layout(a: seq<byte>, b: seq<byte>, c: seq<byte>, d: seq<byte>)
    ensures (a + b + c + d)[|a|..|a| + |b|] == b
    ensures (a + b + c + d)[|a| + |b|..|a| + |b| + |c|] == c
    ensures (a + b + c + d)[|a| + |b| + |c|..] == d
  {
    var s := a + b + c + d;
    assert s == a + (b + (c + d));
    assert s == (a + b) + (c + d);
    assert s == (a + b + c) + d;
  }

  /** A length header line, then the empty line: the body starts right after, with that length. */
  lemma ScanFrameHeaders(input: seq<byte>, pos: nat, mid: nat, stop: nat, line: string, n: nat)
    requires HeaderText(line) && LineAt(input, pos, mid, line) && ContentLengthOf(line) == Some(Ok(n))
    requires stop == mid + 2 <= |input| && input[mid..stop] == CRLF
    ensures ScanHeaders(input, pos, None) == Scan(Blank(Some(n)), stop)
  {
    ScanLengthLine(input, pos, mid, line, n, None);
    ScanBlankLine(input, mid, stop, Some(n));
  }

  /** A frame's header block read by `read_mcp_message`: what follows is the body of the announced length. */
  lemma ReadFrameAt(input: seq<byte>, pos: nat, mid: nat, stop: nat, line: string, n: nat, parse: Parser)
    requires HeaderText(line) && LineAt(input, pos, mid, line) && ContentLengthOf(line) == Some(Ok(n))
    requires stop == mid + 2 <= |input| && input[mid..stop] == CRLF
    ensures ReadMessage(input, pos, parse) == ReadBody(input, stop, Some(n), parse)
  {
    ScanFrameHeaders(input, pos, mid, stop, line, n);
  }

  /** What reading a whole body gives: the value it parses to, or the parse error. */
  function Parsed(body: seq<byte>, parse: Parser): Result<Option<Json>, string> {
    if parse(body).Ok? then Ok(Some(parse(body).value)) else Err(BAD_BODY + parse(body).error)
  }

  /** A whole body at `stop` is read and parsed, and the stream is left just after it. */
  lemma ReadWholeBody(input: seq<byte>, stop: nat, body: seq<byte>, parse: Parser)
    requires stop + |body| <= |input| && input[stop..stop + |body|] == body
    ensures ReadBody(input, stop, Some(|body|), parse) == Read(Parsed(body, parse), stop + |body|)
  {
  }

  /** A frame's header block, then its whole body. */
  lemma ReadWholeFrameAt(input: seq<byte>, pos: nat, mid: nat, stop: nat, line: string, body: seq<byte>, parse: Parser)
    requires HeaderText(line) && LineAt(input, pos, mid, line) && ContentLengthOf(line) == Some(Ok(|body|))
    requires stop == mid + 2 && stop + |body| <= |input| && input[mid..stop] == CRLF
    requires input[stop..stop + |body|] == body
    ensures ReadMessage(input, pos, parse) == Read(Parsed(body, parse), stop + |body|)
  {
    ReadFrameAt(input, pos, mid, stop, line, |body|, parse);
    ReadWholeBody(input, stop, body, parse);
  }

  /** A frame's header block, then fewer bytes than it announces. */
  lemma ReadCutFrameAt(input: seq<byte>, pos: nat, mid: nat, stop: nat, line: string, n: nat, parse: Parser)
    requires HeaderText(line) && LineAt(input, pos, mid, line) && ContentLengthOf(line) == Some(Ok(n))
    requires stop == mid + 2 <= |input| && input[mid..stop] == CRLF && |input| - stop < n
    ensures ReadMessage(input, pos, parse) == Read(Err(SHORT_BODY), |input|)
  {
    ReadFrameAt(input, pos, mid, stop, line, n, parse);
  }

  lemma FrameInStream(before: seq<byte>, line: string, body: seq<byte>, after: seq<byte>)
    ensures before + Frame(line, body) + after == before + (Bytes(line) + CRLF) + CRLF + (body + after)
  {
  }

  lemma FrameAtEnd(before: seq<byte>, line: string, part: seq<byte>)
    ensures before + Frame(line, part) == before + (Bytes(line) + CRLF) + CRLF + part
  {
  }

  /** Where the header line, the empty line and the body of a frame lie in the stream. */
  lemma FramePositions(before: seq<byte>, line: string, body: seq<byte>, after: seq<byte>) returns (mid: nat, stop: nat)
    ensures var input := before + Frame(line, body) + after;
            LineAt(input, |before|, mid, line) && stop == mid + 2 && stop + |body| <= |input|
            && input[mid..stop] == CRLF && input[stop..stop + |body|] == body
            && stop + |body| == |before + Frame(line, body)|
  {
    var h1 := Bytes(line) + CRLF;
    FrameInStream(before, line, body, after);
    var input := before + h1 + CRLF + (body + after);
    Layout(before, h1, CRLF, body + after);
    mid, stop := |before| + |h1|, |before| + |h1| + |CRLF|;
    assert input[stop..stop + |body|] == input[stop..][..|body|];
  }

  /** Where the header line and the empty line of a frame cut inside its body lie in the stream. */
  lemma CutPositions(before: seq<byte>, line: string, part: seq<byte>) returns (mid: nat, stop: nat)
    ensures var input := before + Frame(line, part);
            LineAt(input, |before|, mid, line) && stop == mid + 2 <= |input|
            && input[mid..stop] == CRLF && |input| == stop + |part|
  {
    var h1 := Bytes(line) + CRLF;
    FrameAtEnd(before, line, part);
    Layout(before, h1, CRLF, part);
    mid, stop := |before| + |h1|, |before| + |h1| + |CRLF|;
  }

  /**
   * A frame announcing the length of its body, from wherever it starts:
   * the body is read whole and parsed, and the stream is left just after it.
   */
  lemma ReadFrame(before: seq<byte>, line: string, body: seq<byte>, after: seq<byte>, parse: Parser)
    requires HeaderText(line) && ContentLengthOf(line) == Some(Ok(|body|))
    ensures ReadMessage(before + Frame(line, body) + after, |before|, parse)
         == Read(Parsed(body, parse), |before + Frame(line, body)|)
  {
    var mid, stop := FramePositions(before, line, body, after);
    ReadWholeFrameAt(before + Frame(line, body) + after, |before|, mid, stop, line, body, parse);
  }

  /** A frame whose body is cut short: an error, with the stream drained. */
  lemma ReadCutFrame(before: seq<byte>, line: string, n: nat, part: seq<byte>, parse: Parser)
    requires HeaderText(line) && ContentLengthOf(line) == Some(Ok(n)) && |part| < n
    ensures ReadMessage(before + Frame(line, part), |before|, parse) == Read(Err(SHORT_BODY), |before + Frame(line, part)|)
  {
    var mid, stop := CutPositions(before, line, part);
    ReadCutFrameAt(before + Frame(line, part), |before|, mid, stop, line, n, parse);
  }

  /** Where a header line written after `before` ends in the stream. */
  lemma LinePosition(before: seq<byte>, line: string, rest: seq<byte>) returns (stop: nat)
    ensures LineAt(before + (Bytes(line) + CRLF) + rest, |before|, stop, line)
    ensures stop == |before + (Bytes(line) + CRLF)|
  {
    var bytes := Bytes(line) + CRLF;
    Layout(before, bytes, [], rest);
    stop := |before| + |bytes|;
  }

  /** Where a header line that ends the stream ends. */
  lemma LastLinePosition(before: seq<byte>, line: string) returns (stop: nat)
    ensures LineAt(before + (Bytes(line) + CRLF), |before|, stop, line)
    ensures stop == |before + (Bytes(line) + CRLF)|
  {
    var bytes := Bytes(line) + CRLF;
    assert before + bytes + [] == before + bytes;
    stop := LinePosition(before, line, []);
  }

  /** The header loop at the end of the stream stops there, with what it has seen. */
  lemma ScanAtEnd(input: seq<byte>, len: Option<nat>)
    ensures ScanHeaders(input, |input|, len) == Scan(Eof(len), |input|)
  {
  }

  /** The stream ending right after a `Content-Length` header is an error, not the end of input. */
  lemma EofAfterLengthLine(before: seq<byte>, line: string, n: nat, parse: Parser)
    requires HeaderText(line) && ContentLengthOf(line) == Some(Ok(n))
    ensures ReadMessage(before + (Bytes(line) + CRLF), |before|, parse)
              == Read(Err(EOF_IN_HEADERS), |before + (Bytes(line) + CRLF)|)
  {
    var input := before + (Bytes(line) + CRLF);
    var stop := LastLinePosition(before, line);
    ScanLengthLine(input, |before|, stop, line, n, None);
    ScanAtEnd(input, Some(n));
  }

  /**
   * Round trip: reading the bytes written for a body, from wherever the
   * frame starts, gives back the value the body parses to (or the error for
   * a body that is not JSON) and leaves the stream just after the body.
   */
  lemma ReadWrittenFrame(before: seq<byte>, body: seq<byte>, after: seq<byte>, parse: Parser)
    requires |body| <= USIZE_MAX
    ensures ReadMessage(before + EncodeFrame(body) + after, |before|, parse)
         == Read(if parse(body).Ok? then Ok(Some(parse(body).value)) else Err(BAD_BODY + parse(body).error),
                 |before + EncodeFrame(body)|)
  {
    LengthLineAnnounces(|body|);
    ReadFrame(before, LengthLine(|body|), body, after, parse);
  }

  /** A frame cut short inside its body is an error that drains the stream. */
  lemma ReadTruncatedFrame(before: seq<byte>, body: seq<byte>, cut: nat, parse: Parser)
    requires |body| <= USIZE_MAX && cut < |body|
    ensures var stream := before + EncodeFrame(body)[..|EncodeFrame(body)| - |body| + cut];
            ReadMessage(stream, |before|, parse) == Read(Err(SHORT_BODY), |stream|)
  {
    var line := LengthLine(|body|);
    assert EncodeFrame(body)[..|EncodeFrame(body)| - |body| + cut] == Frame(line, body[..cut]);
    LengthLineAnnounces(|body|);
    ReadCutFrame(before, line, |body|, body[..cut], parse);
  }

  /** The stream ending right after a frame's length header is an error, not the end of input. */
  lemma EofAfterLength(before: seq<byte>, n: nat, parse: Parser)
    requires n <= USIZE_MAX
    ensures ReadMessage(before + (Bytes(LengthLine(n)) + CRLF), |before|, parse)
              == Read(Err(EOF_IN_HEADERS), |before + (Bytes(LengthLine(n)) + CRLF)|)
  {
    LengthLineAnnounces(n);
    EofAfterLengthLine(before, LengthLine(n), n, parse);
  }

  /**
   * The stream ending after a header line that is not a `Content-Length`
   * is a clean end of input, like an empty stream.
   */
  lemma EofAfterOtherHeader(before: seq<byte>, text: string, parse: Parser)
    requires HeaderText(text) && ContentLengthOf(text).None?
    ensures ReadMessage(before + (Bytes(text) + CRLF), |before|, parse) == Read(Ok(None), |before + (Bytes(text) + CRLF)|)
  {
    var input := before + (Bytes(text) + CRLF);
    var stop := LastLinePosition(before, text);
    ScanOtherLine(input, |before|, stop, text, None);
    ScanAtEnd(input, None);
  }

  /** A header line that is not `Content-Length` is skipped: reading from it is reading from the line after it. */
  lemma OtherHeaderIgnored(before: seq<byte>, text: string, rest: seq<byte>, parse: Parser)
    requires HeaderText(text) && ContentLengthOf(text).None?
    ensures ReadMessage(before + (Bytes(text) + CRLF) + rest, |before|, parse)
         == ReadMessage(before + (Bytes(text) + CRLF) + rest, |before + (Bytes(text) + CRLF)|, parse)
  {
    var input := before + (Bytes(text) + CRLF) + rest;
    var stop := LinePosition(before, text, rest);
    ScanOtherLine(input, |before|, stop, text, None);
    SameScanSameRead(input, |before|, stop, parse);
  }

  lemma SameScanSameRead(input: seq<byte>, p: nat, q: nat, parse: Parser)
    requires p <= |input| && q <= |input| && ScanHeaders(input, p, None) == ScanHeaders(input, q, None)
    ensures ReadMessage(input, p, parse) == ReadMessage(input, q, parse)
  {
  }

  // ---------------------------------------------------------------- envelopes

  /** `success_response`: a JSON-RPC 2.0 response object carrying `result`. */
  function SuccessResponse(id: Json, result: Json): (v: Json)
    ensures v.JObject? && v.fields.Keys == {"jsonrpc", "id", "result"}
    ensures v.fields["jsonrpc"] == JString("2.0") && v.fields["id"] == id && v.fields["result"] == result
  {
    JObject(map["jsonrpc" := JString("2.0"), "id" := id, "result" := result])
  }

  /** `error_response`: a JSON-RPC 2.0 response object carrying `error{code, message}`. */
  function ErrorResponse(id: Json, code: int, message: string): (v: Json)
    ensures v.JObject? && v.fields.Keys == {"jsonrpc", "id", "error"}
    ensures v.fields["jsonrpc"] == JString("2.0") && v.fields["id"] == id
    ensures v.fields["error"] == JObject(map["code" := JInt(code), "message" := JString(message)])
  {
    JObject(map["jsonrpc" := JString("2.0"), "id" := id,
                "error" := JObject(map["code" := JInt(code), "message" := JString(message)])])
  }

  /** A response is a success or an error, never both, and it answers the id it was built for. */
  lemma EnvelopesAreExclusive(id: Json, result: Json, code: int, message: string)
    ensures "error" !in SuccessResponse(id, result).fields && "result" !in ErrorResponse(id, code, message).fields
    ensures SuccessResponse(id, result) != ErrorResponse(id, code, message)
  {
    assert "result" in SuccessResponse(id, result).fields.Keys;
  }
}
