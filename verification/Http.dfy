/** The HTTP/1.1 request parser: capped lines, header fields, Content-Length and
    chunked bodies, over a stream that arrives in arbitrary segments. */
module Http {
  import opened Wrappers

  type Byte = b: int | 0 <= b < 256
  type Bytes = seq<Byte>

  const LF: Byte := 10
  const CR: Byte := 13
  const SP: Byte := 32
  const HT: Byte := 9
  const COLON: Byte := 58
  const SEMICOLON: Byte := 59
  const U64_MAX: nat := 0xFFFF_FFFF_FFFF_FFFF

  datatype Error = Closed | Io | BadRequest(why: string) | UriTooLong | HeadersTooLarge | PayloadTooLarge |
                   NotImplemented | VersionNotSupported

  /** `utf8` decides which request lines are valid UTF-8; `text` is what a header
      value reads as when its invalid parts are replaced. */
  datatype Limits = Limits(maxLine: nat, maxHeaders: nat, maxBody: nat, utf8: Bytes -> bool, text: Bytes -> Bytes)

  /** How the stream ends after its last byte: closed, or an I/O error. */
  datatype End = AtEof | Broken

  datatype Header = Header(name: Bytes, value: Bytes)

  datatype Version = Http10 | Http11

  datatype Request = Request(verb: Bytes, path: Bytes, version: Version, headers: seq<Header>, body: Bytes)

  /** A parsed value and what follows it. */
  datatype Parsed<T> = Got(value: T, rest: Bytes) | Bad(error: Error)

  // ----- lines ----------------------------------------------------------------

  function IndexOf(s: Bytes, b: Byte): (r: Option<nat>)
    ensures r.Some? ==> r.value < |s| && s[r.value] == b && b !in s[..r.value]
    ensures r.None? ==> b !in s
  {
    if s == [] then None
    else if s[0] == b then Some(0)
    else
      var r := IndexOf(s[1..], b);
      assert r.Some? ==> s[..r.value + 1] == [s[0]] + s[1..][..r.value];
      if r.Some? then Some(r.value + 1) else None
  }

  lemma {:induction false} FirstIndex(s: Bytes, b: Byte, rest: Bytes)
    requires b !in s
    ensures IndexOf(s + [b] + rest, b) == Some(|s|)
  {
    if s != [] {
      assert (s + [b] + rest)[1..] == s[1..] + [b] + rest;
      FirstIndex(s[1..], b, rest);
    }
  }

  lemma {:induction false} IndexShift(s: Bytes, t: Bytes, b: Byte)
    requires b !in s
    ensures IndexOf(s + t, b) == match IndexOf(t, b) case None => None case Some(i) => Some(|s| + i)
  {
    if s == [] {
      assert s + t == t;
    } else {
      assert (s + t)[1..] == s[1..] + t;
      IndexShift(s[1..], t, b);
    }
  }

  datatype LineError = TooLong | EndOfStream | Interrupted

  datatype LineResult = Line(line: Bytes, rest: Bytes) | NoLine(error: LineError)

  function StripCr(s: Bytes): Bytes {
    if s != [] && s[|s| - 1] == CR then s[..|s| - 1] else s
  }

  /** One line of at most `max` bytes, its terminator included. */
  function LineOf(bytes: Bytes, max: nat, end: End): (r: LineResult)
    ensures r.Line? ==> |r.rest| < |bytes| && |r.line| < max
  {
    match IndexOf(bytes, LF)
    case Some(i) => if i + 1 > max then NoLine(TooLong) else Line(StripCr(bytes[..i]), bytes[i + 1..])
    case None => NoLine(if |bytes| > max then TooLong else if end.AtEof? then EndOfStream else Interrupted)
  }

  function LineFailure(e: LineError, tooLong: Error, first: bool): Error {
    match e
    case TooLong => tooLong
    case EndOfStream => if first then Closed else BadRequest("unexpected end of stream")
    case Interrupted => Io
  }

  // ----- header fields ----------------------------------------------------------

  predicate IsDigit(b: Byte) { 48 <= b <= 57 }

  predicate IsAlpha(b: Byte) { 65 <= b <= 90 || 97 <= b <= 122 }

  predicate IsTchar(b: Byte) {
    IsDigit(b) || IsAlpha(b) || b in {33, 35, 36, 37, 38, 39, 42, 43, 45, 46, 94, 95, 96, 124, 126}
  }

  predicate IsToken(s: Bytes) {
    s != [] && forall i | 0 <= i < |s| :: IsTchar(s[i])
  }

  predicate IsBlank(b: Byte) { b == SP || b == HT }

  predicate IsValueByte(b: Byte) { (b >= 32 || b == HT) && b != 127 }

  predicate IsValue(s: Bytes) {
    forall i | 0 <= i < |s| :: IsValueByte(s[i])
  }

  function TrimLeft(s: Bytes): (r: Bytes)
    ensures r == [] || !IsBlank(r[0])
    ensures |r| <= |s| && r == s[|s| - |r|..] && forall i | 0 <= i < |s| - |r| :: IsBlank(s[i])
  {
    if s != [] && IsBlank(s[0]) then TrimLeft(s[1..]) else s
  }

  function TrimRight(s: Bytes): (r: Bytes)
    ensures r == [] || !IsBlank(r[|r| - 1])
    ensures r <= s && forall i | |r| <= i < |s| :: IsBlank(s[i])
  {
    if s != [] && IsBlank(s[|s| - 1]) then TrimRight(s[..|s| - 1]) else s
  }

  function FieldOf(line: Bytes, lim: Limits): Result<Header, Error>
    requires line != []
  {
    if IsBlank(line[0]) then Err(BadRequest("obsolete header line folding"))
    else
      match IndexOf(line, COLON)
      case None => Err(BadRequest("header without ':'"))
      case Some(colon) =>
        if !IsToken(line[..colon]) then Err(BadRequest("invalid header name"))
        else if !IsValue(line[colon + 1..]) then Err(BadRequest("invalid header value"))
        else Ok(Header(line[..colon], TrimRight(TrimLeft(lim.text(line[colon + 1..])))))
  }

  /** Header fields up to and including the empty line. */
  function FieldsOf(bytes: Bytes, lim: Limits, end: End, sofar: seq<Header>): (r: Parsed<seq<Header>>)
    decreases |bytes|
    ensures r.Got? ==> |r.rest| < |bytes|
    ensures r.Got? && |sofar| <= lim.maxHeaders ==> |r.value| <= lim.maxHeaders
  {
    match LineOf(bytes, lim.maxLine, end)
    case NoLine(e) => Bad(LineFailure(e, HeadersTooLarge, false))
    case Line(line, rest) =>
      if line == [] then Got(sofar, rest)
      else if |sofar| >= lim.maxHeaders then Bad(HeadersTooLarge)
      else
        match FieldOf(line, lim)
        case Err(e) => Bad(e)
        case Ok(h) => FieldsOf(rest, lim, end, sofar + [h])
  }

  // ----- bodies -----------------------------------------------------------------------

  function Exactly(bytes: Bytes, n: nat, end: End): (r: Parsed<Bytes>)
    ensures r.Got? ==> |r.rest| + n == |bytes|
  {
    if n <= |bytes| then Got(bytes[..n], bytes[n..])
    else Bad(if end.AtEof? then BadRequest("body shorter than declared") else Io)
  }

  predicate IsHex(b: Byte) { IsDigit(b) || 65 <= b <= 70 || 97 <= b <= 102 }

  function HexDigit(b: Byte): (d: nat)
    requires IsHex(b)
    ensures d < 16
  {
    if b <= 57 then b - 48 else if b <= 70 then b - 55 else b - 87
  }

  function HexValue(s: Bytes): nat
    requires forall i | 0 <= i < |s| :: IsHex(s[i])
  {
    if s == [] then 0 else HexValue(s[..|s| - 1]) * 16 + HexDigit(s[|s| - 1])
  }

  /** The size at the start of a chunk line: up to an extension, blanks before
      the extension dropped. */
  function SizePart(line: Bytes): Bytes {
    match IndexOf(line, SEMICOLON)
    case Some(i) => TrimRight(line[..i])
    case None => TrimRight(line)
  }

  function ChunkSize(line: Bytes): Option<nat> {
    var s := SizePart(line);
    if s == [] || |s| > 16 || !(forall i | 0 <= i < |s| :: IsHex(s[i])) then None else Some(HexValue(s))
  }

  function SaturatingAdd(a: nat, b: nat): (r: nat)
    ensures r <= U64_MAX && (r == a + b || (r == U64_MAX && a + b > U64_MAX))
  {
    if a + b > U64_MAX then U64_MAX else a + b
  }

  /** A chunked body after `body` was already decoded. */
  function ChunkedOf(bytes: Bytes, lim: Limits, end: End, body: Bytes): (r: Parsed<Bytes>)
    decreases |bytes|
    ensures r.Got? ==> |r.rest| < |bytes|
  {
    match LineOf(bytes, lim.maxLine, end)
    case NoLine(e) => Bad(LineFailure(e, BadRequest("chunk size line too long"), false))
    case Line(line, rest) =>
      match ChunkSize(line)
      case None => Bad(BadRequest("invalid chunk size"))
      case Some(0) =>
        (match FieldsOf(rest, lim, end, [])
         case Bad(e) => Bad(e)
         case Got(_, rest) => Got(body, rest))
      case Some(size) =>
        if SaturatingAdd(|body|, size) > lim.maxBody then Bad(PayloadTooLarge)
        else
          match Exactly(rest, size, end)
          case Bad(e) => Bad(e)
          case Got(data, rest) =>
            match LineOf(rest, 2, end)
            case NoLine(e) => Bad(LineFailure(e, BadRequest("missing CRLF after chunk"), false))
            case Line(crlf, rest) =>
              if crlf != [] then Bad(BadRequest("missing CRLF after chunk"))
              else ChunkedOf(rest, lim, end, body + data)
  }

  // ----- the head ------------------------------------------------------------------------

  function Ascii(s: string): (r: Bytes)
    requires forall i | 0 <= i < |s| :: s[i] < 128 as char
    ensures |r| == |s| && forall i | 0 <= i < |s| :: r[i] == s[i] as int
  {
    seq(|s|, i requires 0 <= i < |s| => s[i] as int)
  }

  function Lower(b: Byte): Byte {
    if 65 <= b <= 90 then b + 32 else b
  }

  /** Equal up to ASCII case. */
  predicate SameName(a: Bytes, b: Bytes) {
    |a| == |b| && forall i | 0 <= i < |a| :: Lower(a[i]) == Lower(b[i])
  }

  datatype RequestLine = RequestLine(verb: Bytes, target: Bytes, version: Version)

  const MALFORMED: Error := BadRequest("malformed request line")

  function VersionText(v: Version): Bytes {
    match v case Http11 => Ascii("HTTP/1.1") case Http10 => Ascii("HTTP/1.0")
  }

  function RequestLineOf(line: Bytes, lim: Limits): Result<RequestLine, Error> {
    if !lim.utf8(line) then Err(BadRequest("non-UTF-8 request line"))
    else
      match IndexOf(line, SP)
      case None => Err(MALFORMED)
      case Some(i) =>
        var verb, after := line[..i], line[i + 1..];
        match IndexOf(after, SP)
        case None => Err(MALFORMED)
        case Some(j) =>
          var target, version := after[..j], after[j + 1..];
          if SP in version || verb == [] || target == [] then Err(MALFORMED)
          else if !IsToken(verb) then Err(BadRequest("invalid method"))
          else if exists k | 0 <= k < |target| :: target[k] <= 32 || target[k] == 127 then
            Err(BadRequest("invalid request target"))
          else if version == VersionText(Http11) then Ok(RequestLine(verb, target, Http11))
          else if version == VersionText(Http10) then Ok(RequestLine(verb, target, Http10))
          else if Ascii("HTTP/") <= version then Err(VersionNotSupported)
          else Err(MALFORMED)
  }

  /** The first non-empty line, after at most four empty ones. */
  function FirstLine(bytes: Bytes, lim: Limits, end: End, skipped: nat): (r: Parsed<Bytes>)
    decreases |bytes|
    ensures r.Got? ==> |r.rest| < |bytes|
  {
    match LineOf(bytes, lim.maxLine, end)
    case NoLine(e) => Bad(LineFailure(e, UriTooLong, skipped == 0))
    case Line(line, rest) =>
      if line != [] then Got(line, rest)
      else if skipped + 1 > 4 then Bad(BadRequest("empty request line"))
      else FirstLine(rest, lim, end, skipped + 1)
  }

  // ----- framing ---------------------------------------------------------------------------

  datatype Framing = NoBody | Length(n: nat) | Chunked

  predicate IsContentLength(h: Header) {
    SameName(h.name, Ascii("content-length"))
  }

  predicate IsTransferEncoding(h: Header) {
    SameName(h.name, Ascii("transfer-encoding"))
  }

  function DigitOf(b: Byte): nat
    requires IsDigit(b)
  {
    b - 48
  }

  function DecValue(s: Bytes): nat
    requires forall i | 0 <= i < |s| :: IsDigit(s[i])
  {
    if s == [] then 0 else DecValue(s[..|s| - 1]) * 10 + DigitOf(s[|s| - 1])
  }

  function LengthOf(value: Bytes): Option<nat> {
    if value == [] || |value| > 20 || !(forall i | 0 <= i < |value| :: IsDigit(value[i])) then None
    else if DecValue(value) > U64_MAX then None
    else Some(DecValue(value))
  }

  datatype Seen = Seen(length: Option<nat>, coding: Option<Bytes>)

  function See(seen: Seen, h: Header): Result<Seen, Error> {
    if IsContentLength(h) then
      match LengthOf(h.value)
      case None => Err(BadRequest("invalid Content-Length"))
      case Some(n) =>
        if seen.length.Some? && seen.length.value != n then Err(BadRequest("conflicting Content-Length"))
        else Ok(seen.(length := Some(n)))
    else if IsTransferEncoding(h) then
      if seen.coding.Some? then Err(BadRequest("multiple Transfer-Encoding headers"))
      else Ok(seen.(coding := Some(h.value)))
    else Ok(seen)
  }

  function SeeAll(headers: seq<Header>): Result<Seen, Error> {
    if headers == [] then Ok(Seen(None, None))
    else
      match SeeAll(headers[..|headers| - 1])
      case Err(e) => Err(e)
      case Ok(seen) => See(seen, headers[|headers| - 1])
  }

  function FramingOf(headers: seq<Header>, version: Version, maxBody: nat): Result<Framing, Error> {
    match SeeAll(headers)
    case Err(e) => Err(e)
    case Ok(seen) =>
      match (seen.coding, seen.length)
      case (Some(_), Some(_)) => Err(BadRequest("both Content-Length and Transfer-Encoding"))
      case (Some(te), None) =>
        if version == Http10 then Err(BadRequest("Transfer-Encoding in HTTP/1.0"))
        else if !SameName(te, Ascii("chunked")) then Err(NotImplemented)
        else Ok(Chunked)
      case (None, Some(n)) => if n > maxBody then Err(PayloadTooLarge) else Ok(Length(n))
      case (None, None) => Ok(NoBody)
  }

  // ----- a request ----------------------------------------------------------------------------

  function BodyOf(bytes: Bytes, lim: Limits, end: End, framing: Framing): Parsed<Bytes> {
    match framing
    case NoBody => Got([], bytes)
    case Length(n) => Exactly(bytes, n, end)
    case Chunked => ChunkedOf(bytes, lim, end, [])
  }

  function PathOf(target: Bytes): (r: Bytes)
    ensures r <= target && 63 !in r && 35 !in r
    ensures |r| < |target| ==> target[|r|] in {63, 35}
  {
    if target == [] || target[0] in {63, 35} then []
    else
      var r := PathOf(target[1..]);
      [target[0]] + r
  }

  function RequestOf(bytes: Bytes, lim: Limits, end: End): (r: Parsed<Request>) {
    match FirstLine(bytes, lim, end, 0)
    case Bad(e) => Bad(e)
    case Got(line, rest) =>
      match RequestLineOf(line, lim)
      case Err(e) => Bad(e)
      case Ok(rl) =>
        match FieldsOf(rest, lim, end, [])
        case Bad(e) => Bad(e)
        case Got(headers, rest) =>
          match FramingOf(headers, rl.version, lim.maxBody)
          case Err(e) => Bad(e)
          case Ok(framing) =>
            match BodyOf(rest, lim, end, framing)
            case Bad(e) => Bad(e)
            case Got(body, rest) => Got(Request(rl.verb, PathOf(rl.target), rl.version, headers, body), rest)
  }

  // ----- the reader ----------------------------------------------------------------------------

  /** A stream delivered in segments, as a buffered reader sees it. */
  class Reader {
    var segments: seq<Bytes>
    const end: End

    ghost function Bytes(): Bytes
      reads this
    {
      Flatten(segments)
    }

    ghost predicate Valid()
      reads this
    {
      forall i | 0 <= i < |segments| :: segments[i] != []
    }

    constructor (segments: seq<Bytes>, end: End)
      requires forall i | 0 <= i < |segments| :: segments[i] != []
      ensures Valid() && Bytes() == Flatten(segments) && this.end == end
    {
      this.segments, this.end := segments, end;
    }

    /** What is buffered; empty at the end of the stream. */
    method FillBuf() returns (buf: Bytes, ghost after: Bytes)
      requires Valid()
      ensures Bytes() == buf + after
      ensures if segments == [] then buf == [] && after == [] else buf == segments[0] && buf != []
    {
      if segments == [] {
        return [], [];
      }
      FlattenAppend([segments[0]], segments[1..]);
      assert [segments[0]] + segments[1..] == segments;
      return segments[0], Flatten(segments[1..]);
    }

    method Consume(n: nat)
      requires Valid() && segments != [] && n <= |segments[0]|
      modifies this`segments
      ensures Valid() && n <= |old(Bytes())| && Bytes() == old(Bytes())[n..]
      ensures |segments| <= |old(segments)| && (n == |old(segments)[0]| ==> |segments| < |old(segments)|)
    {
      var s, rest := segments[0], segments[1..];
      FlattenAppend([s], rest);
      assert [s] + rest == segments;
      if n == |s| {
        segments := rest;
      } else {
        FlattenAppend([s[n..]], rest);
        segments := [s[n..]] + rest;
      }
    }
  }

  /** Read one line; at most `max` bytes are ever held. */
  method ReadLine(r: Reader, max: nat) returns (res: Result<Bytes, LineError>)
    requires r.Valid()
    modifies r
    ensures r.Valid()
    ensures match LineOf(old(r.Bytes()), max, r.end)
      case Line(line, rest) => res == Ok(line) && r.Bytes() == rest
      case NoLine(e) => res == Err(e)
  {
    hide IndexOf, StripCr;
    ghost var all := r.Bytes();
    var out: Bytes := [];
    while true
      invariant r.Valid() && out + r.Bytes() == all && LF !in out && |out| <= max
      decreases |r.segments|
    {
      var buf, after := r.FillBuf();
      if buf == [] {
        assert all == out && IndexOf(out, LF).None?;
        return Err(if r.end.AtEof? then EndOfStream else Interrupted);
      }
      var at := IndexOf(buf, LF);
      var chunk := if at.Some? then buf[..at.value + 1] else buf;
      if at.Some? {
        Terminated(out, buf, after, all, at.value, max, r.end);
        assert (out + chunk)[..|out| + |chunk| - 1] == out + buf[..at.value];
      } else {
        Unterminated(out, buf, after, all, max, r.end);
      }
      if |out| + |chunk| > max {
        return Err(TooLong);
      }
      out := out + chunk;
      r.Consume(|chunk|);
      if at.Some? {
        out := out[..|out| - 1];
        return Ok(StripCr(out));
      }
    }
  }

  /** A segment without a terminator: all of it belongs to the line. */
  lemma Unterminated(out: Bytes, buf: Bytes, after: Bytes, all: Bytes, max: nat, end: End)
    requires LF !in out && LF !in buf && all == out + (buf + after)
    ensures LF !in out + buf
    ensures |out| + |buf| > max ==> LineOf(all, max, end) == NoLine(TooLong)
  {
    hide IndexOf, StripCr;
    IndexShift(out + buf, after, LF);
    assert all == (out + buf) + after;
  }

  /** A segment with the terminator at `i`: the line ends there. */
  lemma Terminated(out: Bytes, buf: Bytes, after: Bytes, all: Bytes, i: nat, max: nat, end: End)
    requires LF !in out && i < |buf| && buf[i] == LF && LF !in buf[..i] && all == out + (buf + after)
    ensures |out| + i + 1 > max ==> LineOf(all, max, end) == NoLine(TooLong)
    ensures |out| + i + 1 <= max ==> LineOf(all, max, end) == Line(StripCr(out + buf[..i]), (buf + after)[i + 1..])
  {
    hide IndexOf, StripCr;
    assert all == (out + buf[..i]) + [LF] + (buf[i + 1..] + after);
    FirstIndex(out + buf[..i], LF, buf[i + 1..] + after);
    assert all[..|out| + i] == out + buf[..i];
    assert all[|out| + i + 1..] == (buf + after)[i + 1..];
  }

  /** Read exactly `n` bytes. */
  method ReadExactly(r: Reader, n: nat) returns (res: Result<Bytes, Error>)
    requires r.Valid()
    modifies r
    ensures r.Valid()
    ensures match Exactly(old(r.Bytes()), n, r.end)
      case Got(data, rest) => res == Ok(data) && r.Bytes() == rest
      case Bad(e) => res == Err(e)
  {
    ghost var all := r.Bytes();
    var out: Bytes := [];
    while |out| < n
      invariant r.Valid() && out + r.Bytes() == all && |out| <= n
      decreases |r.segments|, n - |out|
    {
      var buf, after := r.FillBuf();
      if buf == [] {
        return Err(if r.end.AtEof? then BadRequest("body shorter than declared") else Io);
      }
      var take := if |buf| < n - |out| then |buf| else n - |out|;
      out := out + buf[..take];
      r.Consume(take);
    }
    return Ok(out);
  }

  /** Read header fields up to the empty line, onto `headers0`. */
  method ReadFields(r: Reader, lim: Limits, headers0: seq<Header>) returns (res: Result<seq<Header>, Error>)
    requires r.Valid()
    modifies r
    ensures r.Valid()
    ensures match FieldsOf(old(r.Bytes()), lim, r.end, headers0)
      case Got(headers, rest) => res == Ok(headers) && r.Bytes() == rest
      case Bad(e) => res == Err(e)
  {
    hide LineOf, FieldOf;
    var headers := headers0;
    while true
      invariant r.Valid() && FieldsOf(r.Bytes(), lim, r.end, headers) == FieldsOf(old(r.Bytes()), lim, r.end, headers0)
      decreases |r.Bytes()|
    {
      var line := ReadLine(r, lim.maxLine);
      if line.Err? {
        return Err(LineFailure(line.error, HeadersTooLarge, false));
      }
      if line.value == [] {
        return Ok(headers);
      }
      if |headers| >= lim.maxHeaders {
        return Err(HeadersTooLarge);
      }
      var h := FieldOf(line.value, lim);
      if h.Err? {
        return Err(h.error);
      }
      headers := headers + [h.value];
    }
  }

  method ReadChunked(r: Reader, lim: Limits) returns (res: Result<Bytes, Error>)
    requires r.Valid()
    modifies r
    ensures r.Valid()
    ensures match ChunkedOf(old(r.Bytes()), lim, r.end, [])
      case Got(body, rest) => res == Ok(body) && r.Bytes() == rest
      case Bad(e) => res == Err(e)
  {
    hide LineOf, ChunkSize, FieldsOf, Exactly;
    var body: Bytes := [];
    while true
      invariant r.Valid() && ChunkedOf(r.Bytes(), lim, r.end, body) == ChunkedOf(old(r.Bytes()), lim, r.end, [])
      decreases |r.Bytes()|
    {
      var line := ReadLine(r, lim.maxLine);
      if line.Err? {
        return Err(LineFailure(line.error, BadRequest("chunk size line too long"), false));
      }
      var size := ReadSize(line.value);
      if size.None? {
        return Err(BadRequest("invalid chunk size"));
      }
      if size.value == 0 {
        var trailers := ReadFields(r, lim, []);
        return if trailers.Err? then Err(trailers.error) else Ok(body);
      }
      if SaturatingAdd(|body|, size.value) > lim.maxBody {
        return Err(PayloadTooLarge);
      }
      var data := ReadExactly(r, size.value);
      if data.Err? {
        return Err(data.error);
      }
      var crlf := ReadLine(r, 2);
      if crlf.Err? {
        return Err(LineFailure(crlf.error, BadRequest("missing CRLF after chunk"), false));
      }
      if crlf.value != [] {
        return Err(BadRequest("missing CRLF after chunk"));
      }
      body := body + data.value;
    }
  }

  /** The size of a chunk line, four bits at a time. */
  method ReadSize(line: Bytes) returns (size: Option<nat>)
    ensures size == ChunkSize(line)
  {
    var part := SizePart(line);
    if part == [] || |part| > 16 || !(forall i | 0 <= i < |part| :: IsHex(part[i])) {
      return None;
    }
    var n := 0;
    for i := 0 to |part|
      invariant n == HexValue(part[..i])
    {
      assert part[..i + 1][..i] == part[..i];
      n := n * 16 + HexDigit(part[i]);
    }
    assert part[..|part|] == part;
    return Some(n);
  }

  /** Read one request: what is read depends only on the bytes of the stream,
      not on how they are segmented, and exactly that request is consumed. */
  method ReadRequest(r: Reader, lim: Limits) returns (res: Result<Request, Error>)
    requires r.Valid()
    modifies r
    ensures r.Valid()
    ensures match RequestOf(old(r.Bytes()), lim, r.end)
      case Got(request, rest) => res == Ok(request) && r.Bytes() == rest
      case Bad(e) => res == Err(e)
  {
    hide LineOf, RequestLineOf, FieldsOf, FramingOf, Exactly, ChunkedOf;
    var line: Bytes := [];
    var skipped := 0;
    while line == []
      invariant r.Valid() && skipped <= 4
      invariant if line == [] then FirstLine(r.Bytes(), lim, r.end, skipped) == FirstLine(old(r.Bytes()), lim, r.end, 0)
        else FirstLine(old(r.Bytes()), lim, r.end, 0) == Got(line, r.Bytes())
      decreases if line == [] then 5 - skipped else 0
    {
      var next := ReadLine(r, lim.maxLine);
      if next.Err? {
        return Err(LineFailure(next.error, UriTooLong, skipped == 0));
      }
      line := next.value;
      if line == [] {
        skipped := skipped + 1;
        if skipped > 4 {
          return Err(BadRequest("empty request line"));
        }
      }
    }
    var rl := RequestLineOf(line, lim);
    if rl.Err? {
      return Err(rl.error);
    }
    var headers := ReadFields(r, lim, []);
    if headers.Err? {
      return Err(headers.error);
    }
    var framing := ReadFraming(headers.value, rl.value.version, lim.maxBody);
    if framing.Err? {
      return Err(framing.error);
    }
    var body: Result<Bytes, Error> := Ok([]);
    match framing.value {
      case NoBody =>
      case Length(n) => body := ReadExactly(r, n);
      case Chunked => body := ReadChunked(r, lim);
    }
    if body.Err? {
      return Err(body.error);
    }
    return Ok(Request(rl.value.verb, PathOf(rl.value.target), rl.value.version, headers.value, body.value));
  }

  method ReadFraming(headers: seq<Header>, version: Version, maxBody: nat) returns (res: Result<Framing, Error>)
    ensures res == FramingOf(headers, version, maxBody)
  {
    var seen := Seen(None, None);
    for i := 0 to |headers|
      invariant SeeAll(headers[..i]) == Ok(seen)
    {
      assert headers[..i + 1][..i] == headers[..i];
      var next := See(seen, headers[i]);
      if next.Err? {
        FirstErrorStands(headers, i + 1, next.error);
        return Err(next.error);
      }
      seen := next.value;
    }
    assert headers[..|headers|] == headers;
    if seen.coding.Some? {
      if seen.length.Some? {
        return Err(BadRequest("both Content-Length and Transfer-Encoding"));
      }
      if version == Http10 {
        return Err(BadRequest("Transfer-Encoding in HTTP/1.0"));
      }
      if !SameName(seen.coding.value, Ascii("chunked")) {
        return Err(NotImplemented);
      }
      return Ok(Chunked);
    }
    if seen.length.Some? {
      return if seen.length.value > maxBody then Err(PayloadTooLarge) else Ok(Length(seen.length.value));
    }
    return Ok(NoBody);
  }

  lemma {:induction false} FirstErrorStands(headers: seq<Header>, n: nat, e: Error)
    requires n <= |headers| && SeeAll(headers[..n]) == Err(e)
    ensures SeeAll(headers) == Err(e)
    decreases |headers| - n
  {
    if n < |headers| {
      assert headers[..n + 1][..n] == headers[..n];
      FirstErrorStands(headers, n + 1, e);
    } else {
      assert headers[..n] == headers;
    }
  }
}
