/** What the parser accepts, and nothing else: each part of a message, read off
    the bytes without the functions that read it. */
module HttpGrammar {
  import opened Wrappers
  import opened Http
  import opened HttpNumbers
  import opened HttpWire

  // ----- lines -------------------------------------------------------------------

  /** `bytes` starts with `line` and a line feed, possibly after a carriage
      return, all of at most `max` bytes; `rest` follows. */
  ghost predicate StartsWithLine(bytes: Bytes, max: nat, line: Bytes, rest: Bytes) {
    10 !in line &&
    ((bytes == line + [13, 10] + rest && |line| + 2 <= max) ||
     (bytes == line + [10] + rest && |line| + 1 <= max && (line == [] || line[|line| - 1] != 13)))
  }

  lemma LineMeans(bytes: Bytes, max: nat, end: End, line: Bytes, rest: Bytes)
    ensures LineOf(bytes, max, end) == Line(line, rest) <==> StartsWithLine(bytes, max, line, rest)
  {
    if StartsWithLine(bytes, max, line, rest) {
      LineIsFound(bytes, max, end, line, rest);
    }
    if LineOf(bytes, max, end) == Line(line, rest) {
      LineWasThere(bytes, max, end);
    }
  }

  lemma LineIsFound(bytes: Bytes, max: nat, end: End, line: Bytes, rest: Bytes)
    requires StartsWithLine(bytes, max, line, rest)
    ensures LineOf(bytes, max, end) == Line(line, rest)
  {
    hide IndexOf;
    if bytes == line + [13, 10] + rest && |line| + 2 <= max {
      assert CRLF == [13, 10];
      LineReadBack(line, rest, max, end);
    } else {
      FirstIndex(line, LF, rest);
      assert bytes[..|line|] == line && bytes[|line| + 1..] == rest;
    }
  }

  lemma LineWasThere(bytes: Bytes, max: nat, end: End)
    requires LineOf(bytes, max, end).Line?
    ensures StartsWithLine(bytes, max, LineOf(bytes, max, end).line, LineOf(bytes, max, end).rest)
  {
    hide IndexOf;
    var i := IndexOf(bytes, LF).value;
    var text, rest := bytes[..i], bytes[i + 1..];
    assert bytes == text + [10] + rest;
    if text != [] && text[i - 1] == CR {
      assert text == text[..i - 1] + [13];
      assert bytes == text[..i - 1] + [13, 10] + rest;
    }
  }

  /** Without a line within the cap: it is too long exactly if more than `max`
      bytes came, otherwise the stream ended. */
  lemma NoLineMeans(bytes: Bytes, max: nat, end: End)
    requires forall line, rest :: !StartsWithLine(bytes, max, line, rest)
    ensures LineOf(bytes, max, end) ==
      NoLine(if |bytes| > max then TooLong else if end.AtEof? then EndOfStream else Interrupted)
  {
    if LineOf(bytes, max, end).Line? {
      LineWasThere(bytes, max, end);
    }
  }

  // ----- the start line ----------------------------------------------------------------

  ghost predicate IsStartLine(line: Bytes, verb: Bytes, target: Bytes, version: Version) {
    Token(verb) && IsTarget(target) &&
    line == verb + [32] + (target + [32] + match version case Http11 => Ascii("HTTP/1.1") case Http10 => Ascii("HTTP/1.0"))
  }

  lemma StartMeans(line: Bytes, lim: Limits, verb: Bytes, target: Bytes, version: Version)
    ensures RequestLineOf(line, lim) == Ok(RequestLine(verb, target, version)) <==>
      lim.utf8(line) && IsStartLine(line, verb, target, version)
  {
    hide IndexOf, IsToken, Ascii;
    TokenIsToken(verb);
    if lim.utf8(line) && IsStartLine(line, verb, target, version) {
      var m := Message(0, verb, target, version, [], Absent);
      assert StartLine(m) == line;
      StartReadBack(m, lim);
    }
    if RequestLineOf(line, lim) == Ok(RequestLine(verb, target, version)) {
      StartWasThere(line, lim);
    }
  }

  lemma StartWasThere(line: Bytes, lim: Limits)
    requires RequestLineOf(line, lim).Ok?
    ensures var r := RequestLineOf(line, lim).value;
      lim.utf8(line) && IsToken(r.verb) && IsTarget(r.target) &&
      line == r.verb + [32] + (r.target + [32] + VersionText(r.version))
  {
    hide IndexOf, IsToken, Ascii, VersionText;
    var i := IndexOf(line, SP).value;
    var after := line[i + 1..];
    var j := IndexOf(after, SP).value;
    assert after == after[..j] + [32] + after[j + 1..];
    assert line == line[..i] + [32] + after;
  }

  lemma VersionTexts()
    ensures VersionText(Http11) == Ascii("HTTP/") + Ascii("1.1") && VersionText(Http10) == Ascii("HTTP/") + Ascii("1.0")
    ensures |Ascii("HTTP/")| == 5 && SP !in Ascii("HTTP/")
  {
    assert "HTTP/1.1" == "HTTP/" + "1.1" && "HTTP/1.0" == "HTTP/" + "1.0";
    var a := Ascii("HTTP/");
    assert a[0] == 72 && a[1] == 84 && a[2] == 84 && a[3] == 80 && a[4] == 47;
  }

  lemma VersionPrefix(suffix: Bytes)
    requires 32 !in suffix && suffix != Ascii("1.1") && suffix != Ascii("1.0")
    ensures var version := Ascii("HTTP/") + suffix;
      SP !in version && Ascii("HTTP/") <= version && version != VersionText(Http11) && version != VersionText(Http10)
  {
    hide Ascii, VersionText;
    VersionTexts();
    assert (Ascii("HTTP/") + suffix)[5..] == suffix;
    assert (Ascii("HTTP/") + Ascii("1.1"))[5..] == Ascii("1.1") && (Ascii("HTTP/") + Ascii("1.0"))[5..] == Ascii("1.0");
  }

  lemma TargetIs(target: Bytes)
    requires IsTarget(target)
    ensures target != [] && forall k | 0 <= k < |target| :: target[k] > 32 && target[k] != 127
  {
  }

  lemma OtherVersion(verb: Bytes, target: Bytes, version: Bytes, line: Bytes, lim: Limits)
    requires IsToken(verb) && verb != [] && target != [] && lim.utf8(line) && SP !in verb && SP !in target && SP !in version
    requires forall k | 0 <= k < |target| :: target[k] > 32 && target[k] != 127
    requires line == verb + [32] + (target + [32] + version)
    requires Ascii("HTTP/") <= version && version != VersionText(Http11) && version != VersionText(Http10)
    ensures RequestLineOf(line, lim) == Err(VersionNotSupported)
  {
    hide IndexOf, IsToken, Ascii, VersionText;
    SplitAt(verb, SP, target + [32] + version, line);
    SplitAt(target, SP, version, target + [32] + version);
  }

  /** A version the parser does not know is refused as such. */
  lemma UnknownVersion(verb: Bytes, target: Bytes, suffix: Bytes, line: Bytes, lim: Limits)
    requires Token(verb) && IsTarget(target) && 32 !in suffix && lim.utf8(line)
    requires line == verb + [32] + (target + [32] + (Ascii("HTTP/") + suffix))
    ensures suffix != Ascii("1.1") && suffix != Ascii("1.0") ==> RequestLineOf(line, lim) == Err(VersionNotSupported)
  {
    hide IndexOf, IsToken, Ascii, VersionText, IsTarget;
    TokenIsToken(verb);
    TargetIs(target);
    if suffix != Ascii("1.1") && suffix != Ascii("1.0") {
      VersionPrefix(suffix);
      StartBytes(Message(0, verb, target, Http11, [], Absent));
      VerbNotEmpty(verb);
      OtherVersion(verb, target, Ascii("HTTP/") + suffix, line, lim);
    }
  }

  // ----- header fields -----------------------------------------------------------------

  ghost predicate Surrounded(text: Bytes, value: Bytes) {
    (value != [] ==> !Blank(value[0]) && !Blank(value[|value| - 1])) &&
    exists pre, post :: Blanks(pre) && Blanks(post) && text == pre + value + post
  }

  ghost predicate IsFieldLine(line: Bytes, lim: Limits, h: Header) {
    exists raw :: Token(h.name) && Printable(raw) && line == h.name + [58] + raw && Surrounded(lim.text(raw), h.value)
  }

  lemma TrimLeaves(text: Bytes)
    ensures Surrounded(text, TrimRight(TrimLeft(text)))
  {
    hide TrimLeft, TrimRight;
    var left := TrimLeft(text);
    var both := TrimRight(left);
    var pre, post := text[..|text| - |left|], left[|both|..];
    assert text == pre + left && left == both + post;
    assert text == pre + both + post;
    assert Blanks(pre) && Blanks(post);
  }

  lemma TrimMeans(text: Bytes, value: Bytes)
    ensures TrimRight(TrimLeft(text)) == value <==> Surrounded(text, value)
  {
    hide TrimLeft, TrimRight;
    TrimLeaves(text);
    if Surrounded(text, value) {
      var a, b :| Blanks(a) && Blanks(b) && text == a + value + b;
      Trimmed(a, value, b);
    }
  }

  lemma FieldIsFound(line: Bytes, lim: Limits, h: Header, raw: Bytes)
    requires Token(h.name) && Printable(raw) && line == h.name + [58] + raw && Surrounded(lim.text(raw), h.value)
    ensures line != [] && FieldOf(line, lim) == Ok(h)
  {
    hide IndexOf, IsToken, TrimLeft, TrimRight, Surrounded, Token, IsBlank;
    NameStarts(h.name);
    assert line[0] == h.name[0];
    SplitAt(h.name, COLON, raw, line);
    TrimMeans(lim.text(raw), h.value);
  }

  lemma FieldWasThere(line: Bytes, lim: Limits) returns (raw: Bytes)
    requires line != [] && FieldOf(line, lim).Ok?
    ensures var h := FieldOf(line, lim).value;
      Token(h.name) && Printable(raw) && line == h.name + [58] + raw && Surrounded(lim.text(raw), h.value)
  {
    hide IndexOf, IsToken, TrimLeft, TrimRight, Surrounded, Token, IsBlank;
    var i := IndexOf(line, COLON).value;
    raw := line[i + 1..];
    assert line == line[..i] + [58] + raw;
    TokenIsToken(line[..i]);
    TrimMeans(lim.text(raw), FieldOf(line, lim).value.value);
  }

  lemma FieldMeans(line: Bytes, lim: Limits, h: Header)
    requires line != []
    ensures FieldOf(line, lim) == Ok(h) <==> IsFieldLine(line, lim, h)
  {
    hide FieldOf, Surrounded, Token, Printable;
    if IsFieldLine(line, lim, h) {
      var raw :| Token(h.name) && Printable(raw) && line == h.name + [58] + raw && Surrounded(lim.text(raw), h.value);
      FieldIsFound(line, lim, h, raw);
    }
    if FieldOf(line, lim) == Ok(h) {
      var raw := FieldWasThere(line, lim);
    }
  }

  lemma NameStarts(name: Bytes)
    requires Token(name)
    ensures name != [] && !IsBlank(name[0]) && COLON !in name && IsToken(name)
  {
    TokenIsToken(name);
    assert TokenChar(name[0] as char);
    forall i | 0 <= i < |name| ensures name[i] != COLON {
      assert TokenChar(name[i] as char);
    }
  }

  // ----- chunk sizes ---------------------------------------------------------------------

  predicate HexDigits(s: Bytes) {
    forall i | 0 <= i < |s| :: 48 <= s[i] <= 57 || 65 <= s[i] <= 70 || 97 <= s[i] <= 102
  }

  /** Hexadecimal digits, blanks, and possibly an extension. */
  ghost predicate IsSizeLine(line: Bytes, size: Bytes) {
    1 <= |size| <= 16 && HexDigits(size) &&
    exists blanks, ext :: Blanks(blanks) && Extension(ext) && line == size + blanks + ext
  }

  predicate Extension(ext: Bytes) {
    ext == [] || ext[0] == 59
  }

  lemma NoBlankInSize(size: Bytes)
    requires HexDigits(size) && size != []
    ensures SEMICOLON !in size && !IsBlank(size[|size| - 1]) && forall i | 0 <= i < |size| :: IsHex(size[i])
  {
    assert forall i | 0 <= i < |size| :: size[i] > 47 && size[i] != 59;
  }

  lemma SizeIsFound(line: Bytes, size: Bytes)
    requires IsSizeLine(line, size)
    ensures SizePart(line) == size && ChunkSize(line).Some?
  {
    hide HexValue, SizePart, IsHex, IsBlank, HexDigits;
    NoBlankInSize(size);
    var blanks, ext :| Blanks(blanks) && Extension(ext) && line == size + blanks + ext;
    forall i | 0 <= i < |blanks| ensures blanks[i] != SEMICOLON {
      assert Blank(blanks[i]);
    }
    SizePartReadBack(Chunk(size, blanks, ext, []));
  }

  lemma BlanksAre()
    ensures forall b: Byte :: IsBlank(b) <==> Blank(b)
  {
  }

  lemma HexIs(size: Bytes)
    requires forall i | 0 <= i < |size| :: IsHex(size[i])
    ensures HexDigits(size)
  {
  }

  lemma SizeWasThere(line: Bytes)
    requires ChunkSize(line).Some?
    ensures IsSizeLine(line, SizePart(line))
  {
    hide HexValue, IndexOf, TrimRight, Blank, IsHex, HexDigits, IsBlank;
    var size := SizePart(line);
    BlanksAre();
    HexIs(size);
    var i := IndexOf(line, SEMICOLON);
    var plain := if i.Some? then line[..i.value] else line;
    var blanks, ext := plain[|size|..], line[|plain|..];
    assert plain == size + blanks && Blanks(blanks);
    assert line == plain + ext && Extension(ext);
    assert line == size + blanks + ext;
  }

  lemma SizeMeans(line: Bytes, size: Bytes)
    ensures SizePart(line) == size && ChunkSize(line).Some? <==> IsSizeLine(line, size)
  {
    hide ChunkSize, SizePart, IsSizeLine;
    if IsSizeLine(line, size) {
      SizeIsFound(line, size);
    }
    if ChunkSize(line).Some? {
      SizeWasThere(line);
    }
  }

  // ----- framing ----------------------------------------------------------------------------

  /** Why a framing is refused: too large or a coding other than chunked, as told;
      anything else is a bad request. */
  lemma RefusalMeans(headers: seq<Header>, version: Version, maxBody: nat)
    requires FramingOf(headers, version, maxBody).Err?
    ensures var e := FramingOf(headers, version, maxBody).error;
      (e == PayloadTooLarge <==> !HasCoding(headers) && exists n: nat :: n > maxBody && LengthsAgree(headers, n)) &&
      (e == NotImplemented <==> version == Http11 && !HasLength(headers) && OneCoding(headers)) &&
      (e == PayloadTooLarge || e == NotImplemented || e.BadRequest?)
  {
    hide SameName, LengthsAgree, OneCoding, HasLength, HasCoding, IsContentLength, IsTransferEncoding, LengthOf;
    ScanKnows(headers);
    NoSuchHeader(headers);
    var r := SeeAll(headers);
    SeeErrs(headers);
    if r.Ok? && r.value.length.Some? {
      forall n: nat | LengthsAgree(headers, n) ensures n == r.value.length.value {
        SameLength(headers, n, r.value.length.value);
      }
    }
  }

  lemma {:induction false} SeeErrs(headers: seq<Header>)
    ensures SeeAll(headers).Err? ==> SeeAll(headers).error.BadRequest?
  {
    hide LengthOf, IsContentLength, IsTransferEncoding;
    if headers != [] {
      SeeErrs(headers[..|headers| - 1]);
    }
  }
}
