/** Messages as they are sent, and the proof that the parser reads them back,
    one after the other, whatever follows. */
module HttpWire {
  import opened Wrappers
  import opened Http
  import opened HttpNumbers

  const CRLF: Bytes := [13, 10]

  /** Spaces and tabs. */
  predicate Blank(b: Byte) { b == 32 || b == 9 }

  predicate Blanks(s: Bytes) {
    forall i | 0 <= i < |s| :: Blank(s[i])
  }

  /** No control characters but tabs. */
  predicate Printable(s: Bytes) {
    forall i | 0 <= i < |s| :: s[i] == 9 || 32 <= s[i] < 127 || 127 < s[i]
  }

  /** The characters of method names and header names. */
  predicate TokenChar(c: char) {
    '0' <= c <= '9' || 'a' <= c <= 'z' || 'A' <= c <= 'Z' ||
    c in {'!', '#', '$', '%', '&', '\'', '*', '+', '-', '.', '^', '_', '`', '|', '~'}
  }

  predicate Token(s: Bytes) {
    s != [] && forall i | 0 <= i < |s| :: TokenChar(s[i] as char)
  }

  lemma TokenBytes(b: Byte)
    ensures TokenChar(b as char) <==> IsTchar(b)
  {
  }

  lemma TokenIsToken(s: Bytes)
    ensures Token(s) <==> IsToken(s)
  {
    hide IsTchar;
    forall i | 0 <= i < |s| ensures TokenChar(s[i] as char) <==> IsTchar(s[i]) {
      TokenBytes(s[i]);
    }
  }

  lemma LineReadBack(line: Bytes, rest: Bytes, max: nat, end: End)
    requires LF !in line && |line| + 2 <= max
    ensures LineOf(line + CRLF + rest, max, end) == Line(line, rest)
  {
    var all := line + CRLF + rest;
    assert CRLF == [CR, LF];
    assert all == (line + [CR]) + [LF] + rest;
    FirstIndex(line + [CR], LF, rest);
    assert all[..|line| + 1] == line + [CR];
    assert all[|line| + 2..] == rest;
  }

  /** `all` is split at the first `b`. */
  lemma SplitAt(s: Bytes, b: Byte, t: Bytes, all: Bytes)
    requires b !in s && all == s + [b] + t
    ensures IndexOf(all, b) == Some(|s|) && all[..|s|] == s && all[|s| + 1..] == t && |all| == |s| + 1 + |t|
  {
    hide IndexOf;
    FirstIndex(s, b, t);
  }

  // ----- header fields ------------------------------------------------------------

  /** A field with optional blanks around its value. */
  datatype Field = Field(name: Bytes, pre: Bytes, value: Bytes, post: Bytes)

  function FieldLine(f: Field): Bytes {
    f.name + [58] + (f.pre + f.value + f.post)
  }

  lemma FieldLineOf(f: Field)
    ensures FieldLine(f) == f.name + [COLON] + (f.pre + f.value + f.post)
  {
  }

  predicate FieldFits(f: Field, lim: Limits) {
    lim.text(f.pre + f.value + f.post) == f.pre + f.value + f.post &&
    Token(f.name) && Blanks(f.pre) && Blanks(f.post) && Printable(f.value) &&
    (f.value != [] ==> !Blank(f.value[0]) && !Blank(f.value[|f.value| - 1])) &&
    |FieldLine(f)| + 2 <= lim.maxLine
  }

  function HeaderOf(f: Field): Header {
    Header(f.name, f.value)
  }

  lemma {:induction false} TrimLeftBlanks(pre: Bytes, s: Bytes)
    requires Blanks(pre)
    ensures TrimLeft(pre + s) == TrimLeft(s)
  {
    if pre != [] {
      assert (pre + s)[1..] == pre[1..] + s;
      TrimLeftBlanks(pre[1..], s);
    } else {
      assert pre + s == s;
    }
  }

  lemma {:induction false} TrimRightBlanks(s: Bytes, post: Bytes)
    requires Blanks(post)
    ensures TrimRight(s + post) == TrimRight(s)
  {
    if post != [] {
      var n := |post| - 1;
      assert (s + post)[..|s| + n] == s + post[..n];
      TrimRightBlanks(s, post[..n]);
    } else {
      assert s + post == s;
    }
  }

  lemma NothingToTrim(s: Bytes)
    ensures s == [] || !IsBlank(s[0]) ==> TrimLeft(s) == s
    ensures s == [] || !IsBlank(s[|s| - 1]) ==> TrimRight(s) == s
  {
  }

  lemma Trimmed(pre: Bytes, value: Bytes, post: Bytes)
    requires Blanks(pre) && Blanks(post)
    requires value != [] ==> !IsBlank(value[0]) && !IsBlank(value[|value| - 1])
    ensures TrimRight(TrimLeft(pre + value + post)) == value
  {
    hide TrimLeft, TrimRight, Blanks, IsBlank;
    var tail := value + post;
    assert pre + value + post == pre + tail;
    TrimLeftBlanks(pre, tail);
    NothingToTrim(value);
    if value == [] {
      assert tail == post + [];
      TrimLeftBlanks(post, []);
    } else {
      assert tail[0] == value[0];
      NothingToTrim(tail);
      TrimRightBlanks(value, post);
    }
  }

  lemma FieldBytes(f: Field, lim: Limits)
    requires FieldFits(f, lim)
    ensures FieldLine(f) != [] && LF !in FieldLine(f) && !IsBlank(FieldLine(f)[0])
    ensures IsToken(f.name) && IsValue(f.pre + f.value + f.post) && COLON !in f.name
  {
    TokenIsToken(f.name);
    var line, text := FieldLine(f), f.pre + f.value + f.post;
    assert line[0] == f.name[0] && IsTchar(f.name[0]);
    assert IsValue(text);
    forall i | 0 <= i < |line| ensures line[i] != LF {
      if i < |f.name| {
        assert IsTchar(f.name[i]);
      } else if i > |f.name| {
        assert IsValueByte(text[i - |f.name| - 1]);
      }
    }
    forall i | 0 <= i < |f.name| ensures f.name[i] != COLON {
      assert IsTchar(f.name[i]);
    }
  }

  lemma FieldReadBack(f: Field, lim: Limits)
    requires FieldFits(f, lim)
    ensures FieldLine(f) != [] && LF !in FieldLine(f) && FieldOf(FieldLine(f), lim) == Ok(HeaderOf(f))
  {
    hide IndexOf, TrimLeft, TrimRight, IsToken, IsValue, FieldLine, Blanks;
    FieldBytes(f, lim);
    FieldLineOf(f);
    var text := f.pre + f.value + f.post;
    SplitAt(f.name, COLON, text, FieldLine(f));
    Trimmed(f.pre, f.value, f.post);
  }

  function FieldsWire(fs: seq<Field>): Bytes {
    if fs == [] then CRLF else FieldLine(fs[0]) + CRLF + FieldsWire(fs[1..])
  }

  function HeadersOf(fs: seq<Field>): (r: seq<Header>)
    ensures |r| == |fs| && forall i | 0 <= i < |fs| :: r[i] == HeaderOf(fs[i])
  {
    seq(|fs|, i requires 0 <= i < |fs| => HeaderOf(fs[i]))
  }

  predicate FieldsFit(fs: seq<Field>, lim: Limits) {
    2 <= lim.maxLine && |fs| <= lim.maxHeaders && forall i | 0 <= i < |fs| :: FieldFits(fs[i], lim)
  }

  lemma {:induction false} FieldsReadBack(fs: seq<Field>, rest: Bytes, lim: Limits, end: End, sofar: seq<Header>)
    requires 2 <= lim.maxLine && |sofar| + |fs| <= lim.maxHeaders
    requires forall i | 0 <= i < |fs| :: FieldFits(fs[i], lim)
    ensures FieldsOf(FieldsWire(fs) + rest, lim, end, sofar) == Got(sofar + HeadersOf(fs), rest)
    decreases |fs|
  {
    hide LineOf, FieldOf, FieldLine, FieldFits;
    if fs == [] {
      assert FieldsWire(fs) + rest == [] + CRLF + rest;
      LineReadBack([], rest, lim.maxLine, end);
      assert sofar + HeadersOf(fs) == sofar;
    } else {
      var line, more := FieldLine(fs[0]), FieldsWire(fs[1..]) + rest;
      assert FieldsWire(fs) + rest == line + CRLF + more;
      FieldFitsLine(fs[0], lim);
      FieldReadBack(fs[0], lim);
      LineReadBack(line, more, lim.maxLine, end);
      FieldsReadBack(fs[1..], rest, lim, end, sofar + [HeaderOf(fs[0])]);
      assert sofar + [HeaderOf(fs[0])] + HeadersOf(fs[1..]) == sofar + HeadersOf(fs);
    }
  }

  lemma FieldFitsLine(f: Field, lim: Limits)
    requires FieldFits(f, lim)
    ensures |FieldLine(f)| + 2 <= lim.maxLine
  {
  }

  // ----- chunked bodies ---------------------------------------------------------------

  /** A chunk: hexadecimal size, blanks, extensions, data. */
  datatype Chunk = Chunk(size: Bytes, blanks: Bytes, ext: Bytes, data: Bytes)

  function SizeLine(c: Chunk): Bytes {
    c.size + c.blanks + c.ext
  }

  ghost predicate ChunkFits(c: Chunk, lim: Limits) {
    WritesSize(c.size, |c.data|) && Blanks(c.blanks) && (c.ext != [] ==> c.ext[0] == 59) && 10 !in c.ext &&
    |SizeLine(c)| + 2 <= lim.maxLine
  }

  lemma SizeBytes(c: Chunk, lim: Limits)
    requires ChunkFits(c, lim)
    ensures SEMICOLON !in c.size + c.blanks && LF !in SizeLine(c)
    ensures 1 <= |c.size| <= 16 && (forall i | 0 <= i < |c.size| :: IsHex(c.size[i])) && HexValue(c.size) == |c.data|
    ensures !IsBlank(c.size[|c.size| - 1])
  {
    hide HexValue;
    WrittenSize(c.size, |c.data|);
    assert IsHex(c.size[|c.size| - 1]);
    forall i | 0 <= i < |c.size| ensures c.size[i] != SEMICOLON && c.size[i] != LF {
      assert IsHex(c.size[i]);
    }
    forall i | 0 <= i < |c.blanks| ensures c.blanks[i] != SEMICOLON && c.blanks[i] != LF {
      assert IsBlank(c.blanks[i]);
    }
  }

  /** The extension, if any, is cut off. */
  lemma SizePartOf(plain: Bytes, ext: Bytes, line: Bytes)
    requires SEMICOLON !in plain && (ext != [] ==> ext[0] == SEMICOLON) && line == plain + ext
    ensures SizePart(line) == TrimRight(plain)
  {
    hide IndexOf, TrimRight;
    if ext == [] {
      assert line == plain;
    } else {
      var tail := ext[1..];
      assert ext == [SEMICOLON] + tail;
      assert line == plain + [SEMICOLON] + tail;
      SplitAt(plain, SEMICOLON, tail, line);
    }
  }

  lemma SizePartReadBack(c: Chunk)
    requires SEMICOLON !in c.size + c.blanks && (c.ext != [] ==> c.ext[0] == SEMICOLON) && Blanks(c.blanks)
    requires c.size != [] && !IsBlank(c.size[|c.size| - 1])
    ensures SizePart(SizeLine(c)) == c.size
  {
    hide SizePart, TrimRight, Blanks;
    TrimRightBlanks(c.size, c.blanks);
    NothingToTrim(c.size);
    SizePartOf(c.size + c.blanks, c.ext, SizeLine(c));
  }

  lemma SizeReadBack(c: Chunk, lim: Limits)
    requires ChunkFits(c, lim)
    ensures ChunkSize(SizeLine(c)) == Some(|c.data|) && LF !in SizeLine(c) && |SizeLine(c)| + 2 <= lim.maxLine
  {
    hide SizePart, HexValue;
    SizeBytes(c, lim);
    SizePartReadBack(c);
  }

  function ChunksWire(cs: seq<Chunk>, last: Chunk, trailers: seq<Field>): Bytes {
    if cs == [] then SizeLine(last) + CRLF + FieldsWire(trailers)
    else SizeLine(cs[0]) + CRLF + cs[0].data + CRLF + ChunksWire(cs[1..], last, trailers)
  }

  function DataOf(cs: seq<Chunk>): Bytes {
    if cs == [] then [] else cs[0].data + DataOf(cs[1..])
  }

  ghost predicate ChunksFit(cs: seq<Chunk>, last: Chunk, trailers: seq<Field>, lim: Limits) {
    (forall i | 0 <= i < |cs| :: ChunkFits(cs[i], lim) && cs[i].data != []) &&
    ChunkFits(last, lim) && last.data == [] && FieldsFit(trailers, lim)
  }

  lemma LastReadBack(last: Chunk, trailers: seq<Field>, rest: Bytes, lim: Limits, end: End, body: Bytes)
    requires ChunksFit([], last, trailers, lim)
    ensures ChunkedOf(SizeLine(last) + CRLF + FieldsWire(trailers) + rest, lim, end, body) == Got(body, rest)
  {
    hide LineOf, ChunkSize, FieldsOf, SizeLine;
    SizeReadBack(last, lim);
    var more := FieldsWire(trailers) + rest;
    assert SizeLine(last) + CRLF + FieldsWire(trailers) + rest == SizeLine(last) + CRLF + more;
    LineReadBack(SizeLine(last), more, lim.maxLine, end);
    FieldsReadBack(trailers, rest, lim, end, []);
  }

  lemma ChunkReadBack(c: Chunk, more: Bytes, lim: Limits, end: End, body: Bytes)
    requires ChunkFits(c, lim) && c.data != [] && |body| + |c.data| <= lim.maxBody <= U64_MAX
    ensures ChunkedOf(SizeLine(c) + CRLF + c.data + CRLF + more, lim, end, body) ==
      ChunkedOf(more, lim, end, body + c.data)
  {
    hide LineOf, ChunkSize, FieldsOf, SizeLine;
    SizeReadBack(c, lim);
    var tail := [] + CRLF + more;
    var rest := c.data + tail;
    assert SizeLine(c) + CRLF + c.data + CRLF + more == SizeLine(c) + CRLF + rest;
    LineReadBack(SizeLine(c), rest, lim.maxLine, end);
    assert rest[..|c.data|] == c.data && rest[|c.data|..] == tail;
    LineReadBack([], more, 2, end);
  }

  /** Any split of a body into non-empty chunks decodes to the body. */
  lemma {:induction false} ChunksReadBack(cs: seq<Chunk>, last: Chunk, trailers: seq<Field>, rest: Bytes, lim: Limits,
                                          end: End, body: Bytes)
    requires ChunksFit(cs, last, trailers, lim) && |body| + |DataOf(cs)| <= lim.maxBody <= U64_MAX
    ensures ChunkedOf(ChunksWire(cs, last, trailers) + rest, lim, end, body) == Got(body + DataOf(cs), rest)
    decreases |cs|
  {
    hide ChunkedOf, ChunkFits, SizeLine;
    if cs == [] {
      LastReadBack(last, trailers, rest, lim, end, body);
      assert body + DataOf(cs) == body;
    } else {
      var c, more := cs[0], ChunksWire(cs[1..], last, trailers) + rest;
      assert ChunksWire(cs, last, trailers) + rest == SizeLine(c) + CRLF + c.data + CRLF + more;
      ChunkReadBack(c, more, lim, end, body);
      ChunksReadBack(cs[1..], last, trailers, rest, lim, end, body + c.data);
      assert body + c.data + DataOf(cs[1..]) == body + DataOf(cs);
    }
  }

  // ----- messages -------------------------------------------------------------------------

  datatype Body = Absent | Plain(data: Bytes) | InChunks(chunks: seq<Chunk>, last: Chunk, trailers: seq<Field>)

  /** A request on the wire, after `skipped` empty lines. */
  datatype Message = Message(skipped: nat, verb: Bytes, target: Bytes, version: Version, fields: seq<Field>, body: Body)

  function StartLine(m: Message): Bytes {
    m.verb + [32] + (m.target + [32] + match m.version case Http11 => Ascii("HTTP/1.1") case Http10 => Ascii("HTTP/1.0"))
  }

  lemma StartLineOf(m: Message)
    ensures StartLine(m) == m.verb + [SP] + (m.target + [SP] + VersionText(m.version))
  {
  }

  predicate IsTarget(s: Bytes) {
    s != [] && forall k | 0 <= k < |s| :: s[k] > 32 && s[k] != 127
  }

  function BodyWire(b: Body): Bytes {
    match b
    case Absent => []
    case Plain(data) => data
    case InChunks(cs, last, trailers) => ChunksWire(cs, last, trailers)
  }

  function BodyData(b: Body): Bytes {
    match b
    case Absent => []
    case Plain(data) => data
    case InChunks(cs, _, _) => DataOf(cs)
  }

  function EmptyLines(n: nat): Bytes {
    if n == 0 then [] else CRLF + EmptyLines(n - 1)
  }

  function Wire(m: Message): Bytes {
    EmptyLines(m.skipped) + (StartLine(m) + CRLF + (FieldsWire(m.fields) + BodyWire(m.body)))
  }

  ghost predicate HasLength(headers: seq<Header>) {
    exists h :: h in headers && IsContentLength(h)
  }

  ghost predicate HasCoding(headers: seq<Header>) {
    exists h :: h in headers && IsTransferEncoding(h)
  }

  ghost predicate OneCoding(headers: seq<Header>) {
    forall i, j | 0 <= i < j < |headers| :: !(IsTransferEncoding(headers[i]) && IsTransferEncoding(headers[j]))
  }

  /** The header fields announce the body: its length in decimal, possibly more
      than once, or one chunked coding, or nothing. */
  ghost predicate Framed(m: Message, lim: Limits) {
    var headers := HeadersOf(m.fields);
    match m.body
    case Absent => !HasLength(headers) && !HasCoding(headers)
    case Plain(data) =>
      HasLength(headers) && !HasCoding(headers) && |data| <= lim.maxBody &&
      forall h | h in headers && IsContentLength(h) :: WritesLength(h.value, |data|)
    case InChunks(chunks, last, trailers) =>
      m.version == Http11 && !HasLength(headers) && HasCoding(headers) && OneCoding(headers) &&
      (forall h | h in headers && IsTransferEncoding(h) :: exists upper :: h.value == Variant("chunked", upper)) &&
      ChunksFit(chunks, last, trailers, lim) && |DataOf(chunks)| <= lim.maxBody
  }

  ghost predicate Fits(m: Message, lim: Limits) {
    m.skipped <= 4 && Token(m.verb) && IsTarget(m.target) && lim.utf8(StartLine(m)) &&
    |StartLine(m)| + 2 <= lim.maxLine && FieldsFit(m.fields, lim) && Framed(m, lim) && lim.maxBody <= U64_MAX
  }

  function Meant(m: Message): Request {
    Request(m.verb, PathOf(m.target), m.version, HeadersOf(m.fields), BodyData(m.body))
  }

  lemma VersionBytes(v: Version)
    ensures SP !in VersionText(v) && LF !in VersionText(v)
    ensures VersionText(Http11) != VersionText(Http10)
  {
    var text := match v case Http11 => "HTTP/1.1" case Http10 => "HTTP/1.0";
    assert forall i | 0 <= i < |text| :: text[i] as int > 32;
    forall i | 0 <= i < |VersionText(v)| ensures VersionText(v)[i] > 32 {
      assert VersionText(v)[i] == text[i] as int;
    }
    assert VersionText(Http11)[7] == 49 && VersionText(Http10)[7] == 48;
  }

  lemma StartBytes(m: Message)
    requires IsToken(m.verb) && IsTarget(m.target)
    ensures StartLine(m) != [] && LF !in StartLine(m) && SP !in m.verb && SP !in m.target
  {
    hide VersionText;
    StartLineOf(m);
    VersionBytes(m.version);
    forall i | 0 <= i < |m.verb| ensures m.verb[i] != SP && m.verb[i] != LF {
      assert IsTchar(m.verb[i]);
    }
    forall i | 0 <= i < |m.target| ensures m.target[i] != SP && m.target[i] != LF {
      assert m.target[i] > 32;
    }
  }

  lemma StartReadBack(m: Message, lim: Limits)
    requires IsToken(m.verb) && IsTarget(m.target) && lim.utf8(StartLine(m))
    ensures RequestLineOf(StartLine(m), lim) == Ok(RequestLine(m.verb, m.target, m.version))
  {
    hide IndexOf, IsToken, VersionText, Ascii, StartLine;
    StartLineOf(m);
    StartBytes(m);
    VersionBytes(m.version);
    var after := m.target + [SP] + VersionText(m.version);
    SplitAt(m.verb, SP, after, StartLine(m));
    SplitAt(m.target, SP, VersionText(m.version), after);
    VerbNotEmpty(m.verb);
    assert m.version == Http11 || m.version == Http10;
  }

  lemma VerbNotEmpty(verb: Bytes)
    requires IsToken(verb)
    ensures verb != []
  {
  }

  lemma {:induction false} FirstReadBack(n: nat, line: Bytes, rest: Bytes, lim: Limits, end: End, skipped: nat)
    requires skipped + n <= 4 && line != [] && LF !in line && |line| + 2 <= lim.maxLine
    ensures FirstLine(EmptyLines(n) + (line + CRLF + rest), lim, end, skipped) == Got(line, rest)
    decreases n
  {
    hide LineOf;
    var last := line + CRLF + rest;
    if n == 0 {
      assert EmptyLines(0) + last == last;
      LineReadBack(line, rest, lim.maxLine, end);
    } else {
      var more := EmptyLines(n - 1) + last;
      assert EmptyLines(n) + last == [] + CRLF + more;
      LineReadBack([], more, lim.maxLine, end);
      FirstReadBack(n - 1, line, rest, lim, end, skipped + 1);
    }
  }

  /** How the parser takes the body of the message. */
  ghost function FramingFor(b: Body): Framing {
    match b
    case Absent => NoBody
    case Plain(data) => Length(|data|)
    case InChunks(_, _, _) => Chunked
  }

  /** The announcement is read as it is meant. */
  lemma FramedIsRead(m: Message, lim: Limits)
    requires Framed(m, lim) && lim.maxBody <= U64_MAX
    ensures FramingOf(HeadersOf(m.fields), m.version, lim.maxBody) == Ok(FramingFor(m.body))
  {
    hide FramingOf, SameName, LengthOf, WritesLength, HasLength, HasCoding, OneCoding, IsContentLength, IsTransferEncoding,
         ChunksFit, DataOf, HeadersOf;
    var headers := HeadersOf(m.fields);
    var n := if m.body.Plain? then |m.body.data| else 0;
    FramingMeans(headers, m.version, lim.maxBody, n);
    if m.body.Plain? {
      forall h | h in headers && IsContentLength(h) ensures LengthOf(h.value) == Some(n) {
        WrittenLength(h.value, n);
      }
    }
    if m.body.InChunks? {
      forall h | h in headers && IsTransferEncoding(h) ensures SameName(h.value, Ascii("chunked")) {
        var upper :| h.value == Variant("chunked", upper);
        FramingNames(upper, h.value);
      }
    }
  }

  lemma BodyReadBack(m: Message, rest: Bytes, lim: Limits, end: End)
    requires Framed(m, lim) && lim.maxBody <= U64_MAX
    ensures FramingOf(HeadersOf(m.fields), m.version, lim.maxBody) == Ok(FramingFor(m.body))
    ensures BodyOf(BodyWire(m.body) + rest, lim, end, FramingFor(m.body)) == Got(BodyData(m.body), rest)
  {
    hide FramingOf, ChunkedOf, ChunksWire, ChunksFit, HasLength, HasCoding, OneCoding, IsContentLength, IsTransferEncoding,
         WritesLength, HeadersOf;
    FramedIsRead(m, lim);
    match m.body {
      case Absent => assert [] + rest == rest;
      case Plain(data) =>
        assert (data + rest)[..|data|] == data && (data + rest)[|data|..] == rest;
      case InChunks(chunks, last, trailers) =>
        ChunksReadBack(chunks, last, trailers, rest, lim, end, []);
        assert [] + DataOf(chunks) == DataOf(chunks);
    }
  }

  /** What was sent is read back, and nothing that follows is touched. */
  lemma RoundTrip(m: Message, rest: Bytes, lim: Limits, end: End)
    requires Fits(m, lim)
    ensures RequestOf(Wire(m) + rest, lim, end) == Got(Meant(m), rest)
  {
    hide FirstLine, RequestLineOf, FieldsOf, FramingOf, BodyOf, BodyWire, FieldsWire, StartLine, EmptyLines, IsToken,
         IsTarget,
         FieldsFit, Framed, BodyData;
    var body := BodyWire(m.body) + rest;
    var fields := FieldsWire(m.fields) + body;
    assert Wire(m) + rest == EmptyLines(m.skipped) + (StartLine(m) + CRLF + fields);
    TokenIsToken(m.verb);
    StartBytes(m);
    FirstReadBack(m.skipped, StartLine(m), fields, lim, end, 0);
    StartReadBack(m, lim);
    FieldsFitAll(m.fields, body, lim, end);
    BodyReadBack(m, rest, lim, end);
  }

  lemma FieldsFitAll(fs: seq<Field>, rest: Bytes, lim: Limits, end: End)
    requires FieldsFit(fs, lim)
    ensures FieldsOf(FieldsWire(fs) + rest, lim, end, []) == Got(HeadersOf(fs), rest)
  {
    hide FieldFits, FieldsOf;
    FieldsReadBack(fs, rest, lim, end, []);
    assert [] + HeadersOf(fs) == HeadersOf(fs);
  }

  // ----- one connection ---------------------------------------------------------------------

  /** Requests read in turn until the stream ends or one is rejected. */
  function RequestsOf(bytes: Bytes, lim: Limits, end: End): (seq<Request>, Error)
    decreases |bytes|
  {
    match RequestOf(bytes, lim, end)
    case Bad(e) => ([], e)
    case Got(q, rest) =>
      RequestShrinks(bytes, lim, end);
      var more := RequestsOf(rest, lim, end);
      ([q] + more.0, more.1)
  }

  lemma RequestShrinks(bytes: Bytes, lim: Limits, end: End)
    requires RequestOf(bytes, lim, end).Got?
    ensures |RequestOf(bytes, lim, end).rest| < |bytes|
  {
    hide FirstLine, RequestLineOf, FieldsOf, FramingOf, Exactly, ChunkedOf;
  }

  function WireAll(ms: seq<Message>): Bytes {
    if ms == [] then [] else Wire(ms[0]) + WireAll(ms[1..])
  }

  function MeantAll(ms: seq<Message>): seq<Request> {
    if ms == [] then [] else [Meant(ms[0])] + MeantAll(ms[1..])
  }

  /** Pipelined requests are read in turn, then the connection is closed. */
  lemma {:induction false} Pipelined(ms: seq<Message>, lim: Limits, end: End)
    requires forall i | 0 <= i < |ms| :: Fits(ms[i], lim)
    ensures RequestsOf(WireAll(ms), lim, end) == (MeantAll(ms), if end.AtEof? then Closed else Io)
  {
    hide RequestOf, Fits, Wire, Meant;
    if ms == [] {
      NothingThere(lim, end);
    } else {
      RoundTrip(ms[0], WireAll(ms[1..]), lim, end);
      Pipelined(ms[1..], lim, end);
    }
  }

  lemma NothingThere(lim: Limits, end: End)
    ensures RequestOf([], lim, end) == Bad(if end.AtEof? then Closed else Io)
  {
    hide RequestLineOf, FieldsOf, FramingOf;
  }

  // ----- framing is unambiguous ---------------------------------------------------------------

  /** Every Content-Length says `n`. */
  ghost predicate LengthsAgree(headers: seq<Header>, n: nat) {
    forall h | h in headers && IsContentLength(h) :: LengthOf(h.value) == Some(n)
  }

  /** What the scan over the header fields knows at its end. */
  ghost predicate Knows(headers: seq<Header>, r: Result<Seen, Error>) {
    match r
    case Err(_) => !OneCoding(headers) || forall n: nat :: !LengthsAgree(headers, n)
    case Ok(seen) =>
      OneCoding(headers) && (seen.length.Some? <==> HasLength(headers)) && (seen.coding.Some? <==> HasCoding(headers)) &&
      (seen.length.Some? ==> LengthsAgree(headers, seen.length.value)) &&
      (seen.coding.Some? ==> exists h :: h in headers && IsTransferEncoding(h) && h.value == seen.coding.value)
  }

  lemma DifferentNames(h: Header)
    ensures !(IsContentLength(h) && IsTransferEncoding(h))
  {
    assert |Ascii("content-length")| == 14 && |Ascii("transfer-encoding")| == 17;
  }

  lemma {:induction false} ScanKnows(headers: seq<Header>)
    ensures Knows(headers, SeeAll(headers))
  {
    if headers == [] {
      assert LengthsAgree(headers, 0);
    } else {
      var init, h := headers[..|headers| - 1], headers[|headers| - 1];
      ScanKnows(init);
      assert headers == init + [h];
      KnowsMore(init, h, SeeAll(init));
    }
  }

  lemma Joined(init: seq<Header>, h: Header)
    ensures forall g :: g in init + [h] <==> g in init || g == h
  {
  }

  lemma KnowsMore(init: seq<Header>, h: Header, r: Result<Seen, Error>)
    requires Knows(init, r)
    ensures Knows(init + [h], if r.Err? then r else See(r.value, h))
  {
    hide LengthOf, IsContentLength, IsTransferEncoding;
    DifferentNames(h);
    Joined(init, h);
    if r.Err? {
      ErrorStays(init, h);
    } else if IsContentLength(h) {
      LengthSeen(init, h, r.value);
    } else if IsTransferEncoding(h) {
      CodingSeen(init, h, r.value);
    } else {
      OtherSeen(init, h);
    }
  }

  lemma ErrorStays(init: seq<Header>, h: Header)
    ensures !OneCoding(init) ==> !OneCoding(init + [h])
    ensures forall n: nat | LengthsAgree(init + [h], n) :: LengthsAgree(init, n)
  {
    hide LengthOf, IsContentLength, IsTransferEncoding;
    if !OneCoding(init) {
      var i, j :| 0 <= i < j < |init| && IsTransferEncoding(init[i]) && IsTransferEncoding(init[j]);
      assert (init + [h])[i] == init[i] && (init + [h])[j] == init[j];
    }
    Joined(init, h);
  }

  lemma LengthSeen(init: seq<Header>, h: Header, seen: Seen)
    requires Knows(init, Ok(seen)) && IsContentLength(h) && !IsTransferEncoding(h)
    ensures Knows(init + [h], See(seen, h))
  {
    hide LengthOf, IsContentLength, IsTransferEncoding;
    Joined(init, h);
    var all := init + [h];
    assert h in all;
    match LengthOf(h.value) {
      case None =>
      case Some(n) =>
        if seen.length.Some? && seen.length.value != n {
          var g :| g in init && IsContentLength(g);
          assert g in all;
        } else {
          assert LengthsAgree(all, n);
        }
    }
  }

  lemma CodingSeen(init: seq<Header>, h: Header, seen: Seen)
    requires Knows(init, Ok(seen)) && !IsContentLength(h) && IsTransferEncoding(h)
    ensures Knows(init + [h], See(seen, h))
  {
    hide LengthOf, IsContentLength, IsTransferEncoding;
    Joined(init, h);
    var all := init + [h];
    assert h in all && all[|init|] == h;
    if seen.coding.Some? {
      var g :| g in init && IsTransferEncoding(g);
      var i :| 0 <= i < |init| && init[i] == g;
      assert all[i] == g;
    } else {
      assert forall i | 0 <= i < |init| :: init[i] in init;
      assert OneCoding(all);
    }
  }

  lemma OtherSeen(init: seq<Header>, h: Header)
    requires !IsContentLength(h) && !IsTransferEncoding(h)
    ensures HasLength(init + [h]) <==> HasLength(init)
    ensures HasCoding(init + [h]) <==> HasCoding(init)
    ensures OneCoding(init) ==> OneCoding(init + [h])
    ensures forall n: nat :: LengthsAgree(init, n) ==> LengthsAgree(init + [h], n)
  {
    hide LengthOf, IsContentLength, IsTransferEncoding;
    Joined(init, h);
  }

  lemma NoSuchHeader(headers: seq<Header>)
    ensures !HasLength(headers) ==> LengthsAgree(headers, 0)
    ensures !HasCoding(headers) ==> OneCoding(headers)
  {
    hide LengthOf, IsContentLength, IsTransferEncoding;
    assert forall i | 0 <= i < |headers| :: headers[i] in headers;
  }

  lemma OnlyOne(headers: seq<Header>, g: Header, h: Header)
    requires OneCoding(headers) && g in headers && h in headers && IsTransferEncoding(g) && IsTransferEncoding(h)
    ensures g == h
  {
    hide IsTransferEncoding;
    var i :| 0 <= i < |headers| && headers[i] == g;
    var j :| 0 <= j < |headers| && headers[j] == h;
    if i < j || j < i {
      assert false;
    }
  }

  lemma SameLength(headers: seq<Header>, m: nat, n: nat)
    requires HasLength(headers) && LengthsAgree(headers, m) && LengthsAgree(headers, n)
    ensures m == n
  {
  }

  /** Section 6.3 of RFC 9112, as an exact characterisation. */
  lemma FramingMeans(headers: seq<Header>, version: Version, maxBody: nat, n: nat)
    ensures FramingOf(headers, version, maxBody) == Ok(NoBody) <==> !HasLength(headers) && !HasCoding(headers)
    ensures FramingOf(headers, version, maxBody) == Ok(Length(n)) <==>
      !HasCoding(headers) && HasLength(headers) && LengthsAgree(headers, n) && n <= maxBody
    ensures FramingOf(headers, version, maxBody) == Ok(Chunked) <==>
      version == Http11 && !HasLength(headers) && HasCoding(headers) && OneCoding(headers) &&
      forall h | h in headers && IsTransferEncoding(h) :: SameName(h.value, Ascii("chunked"))
  {
    hide SeeAll, SameName, LengthsAgree, OneCoding, IsTransferEncoding, IsContentLength, HasLength;
    ScanKnows(headers);
    NoSuchHeader(headers);
    var r := SeeAll(headers);
    if r.Ok? && r.value.length.Some? && LengthsAgree(headers, n) {
      SameLength(headers, r.value.length.value, n);
    }
    if r.Ok? && r.value.coding.Some? {
      var g :| g in headers && IsTransferEncoding(g) && g.value == r.value.coding.value;
      forall h | h in headers && IsTransferEncoding(h) ensures h == g {
        OnlyOne(headers, g, h);
      }
    }
  }

  // ----- caps -----------------------------------------------------------------------------------

  lemma {:induction false} ChunkedFits(bytes: Bytes, lim: Limits, end: End, body: Bytes)
    requires |body| <= lim.maxBody < U64_MAX && ChunkedOf(bytes, lim, end, body).Got?
    ensures |ChunkedOf(bytes, lim, end, body).value| <= lim.maxBody
    decreases |bytes|
  {
    hide ChunkSize, FieldsOf;
    var line := LineOf(bytes, lim.maxLine, end);
    var size := ChunkSize(line.line).value;
    if size > 0 {
      var data := Exactly(line.rest, size, end);
      var crlf := LineOf(data.rest, 2, end);
      ChunkedFits(crlf.rest, lim, end, body + data.value);
    }
  }

  /** An accepted request respects the caps on header fields and body. */
  lemma CapsHold(bytes: Bytes, lim: Limits, end: End)
    requires RequestOf(bytes, lim, end).Got? && lim.maxBody < U64_MAX
    ensures |RequestOf(bytes, lim, end).value.body| <= lim.maxBody
    ensures |RequestOf(bytes, lim, end).value.headers| <= lim.maxHeaders
  {
    hide FirstLine, RequestLineOf, FieldsOf, ChunkedOf, SeeAll;
    var line := FirstLine(bytes, lim, end, 0);
    var rl := RequestLineOf(line.value, lim).value;
    var fields := FieldsOf(line.rest, lim, end, []);
    if FramingOf(fields.value, rl.version, lim.maxBody).value.Chunked? {
      ChunkedFits(fields.rest, lim, end, []);
    }
  }
}
