/** Numbers and names as they are written in a message, and the proof that they
    are read as what they mean. */
module HttpNumbers {
  import opened Wrappers
  import opened Http

  // ----- decimal ---------------------------------------------------------------

  /** `n` in decimal, most significant digit first. */
  function Decimal(n: nat): (r: Bytes)
    ensures r != [] && forall i | 0 <= i < |r| :: IsDigit(r[i])
  {
    if n < 10 then [48 + n] else Decimal(n / 10) + [48 + n % 10]
  }

  function Zeros(n: nat): (r: Bytes)
    ensures |r| == n && forall i | 0 <= i < |r| :: r[i] == 48
  {
    seq(n, i => 48)
  }

  function Power(base: nat, k: nat): nat {
    if k == 0 then 1 else base * Power(base, k - 1)
  }

  lemma {:induction false} DecimalValue(n: nat)
    ensures DecValue(Decimal(n)) == n
  {
    if n >= 10 {
      DecimalValue(n / 10);
      assert Decimal(n)[..|Decimal(n)| - 1] == Decimal(n / 10);
    } else {
      assert Decimal(n)[..0] == [];
    }
  }

  lemma {:induction false} DecimalLength(n: nat, k: nat)
    requires k > 0
    ensures |Decimal(n)| <= k <==> n < Power(10, k)
    decreases k
  {
    if k == 1 {
      assert Power(10, 1) == 10 * Power(10, 0);
    } else if n >= 10 {
      DecimalLength(n / 10, k - 1);
    } else {
      PowerGrows(10, k);
    }
  }

  lemma {:induction false} PowerGrows(base: nat, k: nat)
    requires base > 0 && k > 0
    ensures Power(base, k) >= base
  {
    if k > 1 {
      PowerGrows(base, k - 1);
    }
  }

  /** Leading zeros change nothing. */
  lemma {:induction false} PaddedValue(z: nat, s: Bytes)
    requires forall i | 0 <= i < |s| :: IsDigit(s[i])
    ensures DecValue(Zeros(z) + s) == DecValue(s)
    decreases z + |s|
  {
    if s != [] {
      assert (Zeros(z) + s)[..z + |s| - 1] == Zeros(z) + s[..|s| - 1];
      PaddedValue(z, s[..|s| - 1]);
    } else if z > 0 {
      assert (Zeros(z) + s)[..z - 1] == Zeros(z - 1) + [];
      PaddedValue(z - 1, []);
      assert Zeros(z) + s == Zeros(z);
    } else {
      assert Zeros(0) + s == s;
    }
  }

  lemma TwentyDigits()
    ensures Power(10, 20) > U64_MAX
  {
    assert Power(10, 5) == 100000;
    assert Power(10, 10) == 100000 * Power(10, 5);
    assert Power(10, 15) == 100000 * Power(10, 10);
    assert Power(10, 20) == 100000 * Power(10, 15);
  }

  /** A Content-Length is read as the number it is written as, with any leading
      zeros, and refused exactly beyond 20 digits or 64 bits. */
  lemma DecimalIsRead(n: nat, z: nat)
    ensures LengthOf(Zeros(z) + Decimal(n)) == if z + |Decimal(n)| <= 20 && n <= U64_MAX then Some(n) else None
    ensures n <= U64_MAX ==> |Decimal(n)| <= 20
  {
    hide DecValue, Decimal, Zeros;
    var s := Zeros(z) + Decimal(n);
    assert forall i | 0 <= i < |s| :: IsDigit(s[i]);
    PaddedValue(z, Decimal(n));
    DecimalValue(n);
    DecimalLength(n, 20);
    TwentyDigits();
  }

  /** `s` is how a Content-Length of `n` may be written. */
  ghost predicate WritesLength(s: Bytes, n: nat) {
    |s| <= 20 && exists z: nat :: s == Zeros(z) + Decimal(n)
  }

  lemma WrittenLength(s: Bytes, n: nat)
    requires WritesLength(s, n) && n <= U64_MAX
    ensures LengthOf(s) == Some(n)
  {
    hide LengthOf, Decimal;
    var z: nat :| s == Zeros(z) + Decimal(n);
    DecimalIsRead(n, z);
  }

  // ----- hexadecimal -----------------------------------------------------------

  function HexChar(d: nat, upper: bool): (b: Byte)
    requires d < 16
    ensures IsHex(b)
  {
    if d < 10 then 48 + d else (if upper then 65 else 97) + (d - 10)
  }

  /** `n` in hexadecimal; `upper(i)` chooses the case of the digit with `i` digits
      after it. */
  function Hexadecimal(n: nat, upper: nat -> bool, at: nat): (r: Bytes)
    ensures r != [] && forall i | 0 <= i < |r| :: IsHex(r[i])
    decreases n
  {
    if n < 16 then [HexChar(n, upper(at))] else Hexadecimal(n / 16, upper, at + 1) + [HexChar(n % 16, upper(at))]
  }

  lemma {:induction false} HexadecimalValue(n: nat, upper: nat -> bool, at: nat)
    ensures HexValue(Hexadecimal(n, upper, at)) == n
    decreases n
  {
    var r := Hexadecimal(n, upper, at);
    if n >= 16 {
      HexadecimalValue(n / 16, upper, at + 1);
      assert r[..|r| - 1] == Hexadecimal(n / 16, upper, at + 1);
    } else {
      assert r[..0] == [];
    }
  }

  lemma {:induction false} HexadecimalLength(n: nat, upper: nat -> bool, at: nat, k: nat)
    requires k > 0
    ensures |Hexadecimal(n, upper, at)| <= k <==> n < Power(16, k)
    decreases k
  {
    if k == 1 {
      assert Power(16, 1) == 16 * Power(16, 0);
    } else if n >= 16 {
      HexadecimalLength(n / 16, upper, at + 1, k - 1);
    } else {
      PowerGrows(16, k);
    }
  }

  lemma {:induction false} PaddedHex(z: nat, s: Bytes)
    requires forall i | 0 <= i < |s| :: IsHex(s[i])
    ensures HexValue(Zeros(z) + s) == HexValue(s)
    decreases z + |s|
  {
    if s != [] {
      assert (Zeros(z) + s)[..z + |s| - 1] == Zeros(z) + s[..|s| - 1];
      PaddedHex(z, s[..|s| - 1]);
    } else if z > 0 {
      assert (Zeros(z) + s)[..z - 1] == Zeros(z - 1) + [];
      PaddedHex(z - 1, []);
      assert Zeros(z) + s == Zeros(z);
    } else {
      assert Zeros(0) + s == s;
    }
  }

  lemma SixteenDigits()
    ensures Power(16, 16) == U64_MAX + 1
  {
    assert Power(16, 4) == 65536;
    assert Power(16, 8) == 65536 * Power(16, 4);
    assert Power(16, 12) == 65536 * Power(16, 8);
    assert Power(16, 16) == 65536 * Power(16, 12);
  }

  /** A chunk size is read as the number it is written as, in either case and with
      any leading zeros, and refused exactly beyond 16 digits. */
  lemma HexadecimalIsRead(n: nat, z: nat, upper: nat -> bool)
    ensures var s := Zeros(z) + Hexadecimal(n, upper, 0); ChunkSize(s) == if |s| <= 16 then Some(n) else None
    ensures |Hexadecimal(n, upper, 0)| <= 16 <==> n <= U64_MAX
  {
    hide HexValue, Hexadecimal, IndexOf, TrimRight;
    var s := Zeros(z) + Hexadecimal(n, upper, 0);
    PaddedHex(z, Hexadecimal(n, upper, 0));
    HexadecimalValue(n, upper, 0);
    HexadecimalLength(n, upper, 0, 16);
    SixteenDigits();
    assert forall i | 0 <= i < |s| :: IsHex(s[i]);
    assert forall i | 0 <= i < |s| :: s[i] != SEMICOLON && !IsBlank(s[i]);
    PlainSize(s);
  }

  /** `s` is how a chunk size of `n` may be written. */
  ghost predicate WritesSize(s: Bytes, n: nat) {
    |s| <= 16 && exists z: nat, upper: nat -> bool :: s == Zeros(z) + Hexadecimal(n, upper, 0)
  }

  lemma WrittenSize(s: Bytes, n: nat)
    requires WritesSize(s, n)
    ensures s != [] && (forall i | 0 <= i < |s| :: IsHex(s[i])) && HexValue(s) == n
  {
    hide HexValue, Hexadecimal;
    var z: nat, upper: nat -> bool :| s == Zeros(z) + Hexadecimal(n, upper, 0);
    PaddedHex(z, Hexadecimal(n, upper, 0));
    HexadecimalValue(n, upper, 0);
  }

  lemma PlainSize(s: Bytes)
    requires s != [] && forall i | 0 <= i < |s| :: s[i] != SEMICOLON && !IsBlank(s[i])
    ensures SizePart(s) == s
  {
    hide IndexOf;
    assert SEMICOLON !in s;
  }

  // ----- names ---------------------------------------------------------------------

  /** A lower-case ASCII letter or sign in the chosen case. */
  function Cased(c: char, upper: bool): Byte
    requires c < 128 as char
  {
    if upper && 'a' <= c <= 'z' then c as int - 32 else c as int
  }

  /** `name`, written in lower case, with letters in any case. */
  function Variant(name: string, upper: nat -> bool): (r: Bytes)
    requires forall i | 0 <= i < |name| :: name[i] < 128 as char
    ensures |r| == |name| && forall i | 0 <= i < |r| :: r[i] == Cased(name[i], upper(i))
  {
    seq<Byte>(|name|, i requires 0 <= i < |name| => Cased(name[i], upper(i)))
  }

  predicate LowerCase(name: string) {
    forall i | 0 <= i < |name| :: name[i] < 128 as char && !('A' <= name[i] <= 'Z')
  }

  /** Two spellings of one name, and no others, are the same. */
  lemma SameVariants(a: string, b: string, x: nat -> bool, y: nat -> bool)
    requires LowerCase(a) && LowerCase(b)
    ensures SameName(Variant(a, x), Variant(b, y)) <==> a == b
  {
    var s, t := Variant(a, x), Variant(b, y);
    if SameName(s, t) {
      forall i | 0 <= i < |a| ensures a[i] == b[i] {
        assert Lower(s[i]) == Lower(t[i]);
        assert Lower(s[i]) == a[i] as int && Lower(t[i]) == b[i] as int;
      }
    }
  }

  lemma AsciiIsVariant(name: string)
    requires LowerCase(name)
    ensures Ascii(name) == Variant(name, i => false)
  {
  }

  /** The two framing headers are recognised in every spelling, and are not taken
      for one another. */
  lemma FramingNames(upper: nat -> bool, value: Bytes)
    ensures IsContentLength(Header(Variant("content-length", upper), value))
    ensures IsTransferEncoding(Header(Variant("transfer-encoding", upper), value))
    ensures SameName(Variant("chunked", upper), Ascii("chunked"))
    ensures forall name: string | LowerCase(name) ::
      IsContentLength(Header(Variant(name, upper), value)) <==> name == "content-length"
    ensures forall name: string | LowerCase(name) ::
      IsTransferEncoding(Header(Variant(name, upper), value)) <==> name == "transfer-encoding"
  {
    hide SameName, Variant, Ascii;
    AsciiIsVariant("content-length");
    AsciiIsVariant("transfer-encoding");
    AsciiIsVariant("chunked");
    SameVariants("chunked", "chunked", upper, i => false);
    forall name: string | LowerCase(name)
      ensures IsContentLength(Header(Variant(name, upper), value)) <==> name == "content-length"
      ensures IsTransferEncoding(Header(Variant(name, upper), value)) <==> name == "transfer-encoding"
    {
      SameVariants(name, "content-length", upper, i => false);
      SameVariants(name, "transfer-encoding", upper, i => false);
    }
    assert LowerCase("content-length") && LowerCase("transfer-encoding");
  }
}
