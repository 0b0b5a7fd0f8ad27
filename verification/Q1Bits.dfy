/** One-bit weights: the integer and bit-level core of the kernels. */
module Q1Bits {

  // ----- sign bits ------------------------------------------------------------

  predicate BitOf(b: bv8, i: nat)
    requires i < 8
  {
    (b >> i) & 1 == 1
  }

  /** Four bytes of sign bits as a little-endian word. */
  function Word(b0: bv8, b1: bv8, b2: bv8, b3: bv8): bv32 {
    (b0 as bv32) | ((b1 as bv32) << 8) | ((b2 as bv32) << 16) | ((b3 as bv32) << 24)
  }

  /** Group `j` of a word: a shift and an AND leave one bit per byte, doubled. */
  function Expand(w: bv32, j: nat): bv32
    requires j < 8
  {
    var e := (w >> j) & 0x0101_0101;
    e + e
  }

  /** The same with the doubling folded into the shift. */
  function ExpandFolded(w: bv32, j: nat): bv32
    requires j < 8
  {
    if j == 0 then (w << 1) & 0x0202_0202 else (w >> (j - 1)) & 0x0202_0202
  }

  function ByteAt(w: bv32, p: nat): bv32
    requires p < 4
  {
    (w >> (8 * p)) & 0xFF
  }

  /** The unsigned byte `p`, as the multiply instructions read it. */
  function U8(w: bv32, p: nat): nat
    requires p < 4
  {
    ByteAt(w, p) as int
  }

  lemma SameExpansion(w: bv32, j: nat)
    requires j < 8
    ensures Expand(w, j) == ExpandFolded(w, j)
  {
    match j {
      case 0 => assert Expand(w, 0) == ExpandFolded(w, 0);
      case 1 => assert Expand(w, 1) == ExpandFolded(w, 1);
      case 2 => assert Expand(w, 2) == ExpandFolded(w, 2);
      case 3 => assert Expand(w, 3) == ExpandFolded(w, 3);
      case 4 => assert Expand(w, 4) == ExpandFolded(w, 4);
      case 5 => assert Expand(w, 5) == ExpandFolded(w, 5);
      case 6 => assert Expand(w, 6) == ExpandFolded(w, 6);
      case 7 => assert Expand(w, 7) == ExpandFolded(w, 7);
    }
  }

  lemma FirstByte(b0: bv8, b1: bv8, b2: bv8, b3: bv8, j: nat)
    requires j < 8
    ensures ByteAt(Expand(Word(b0, b1, b2, b3), j), 0) == if BitOf(b0, j) then 2 else 0
  {
    match j {
      case 0 => case 1 => case 2 => case 3 => case 4 => case 5 => case 6 => case 7 =>
    }
  }

  lemma SecondByte(b0: bv8, b1: bv8, b2: bv8, b3: bv8, j: nat)
    requires j < 8
    ensures ByteAt(Expand(Word(b0, b1, b2, b3), j), 1) == if BitOf(b1, j) then 2 else 0
  {
    match j {
      case 0 => case 1 => case 2 => case 3 => case 4 => case 5 => case 6 => case 7 =>
    }
  }

  lemma ThirdByte(b0: bv8, b1: bv8, b2: bv8, b3: bv8, j: nat)
    requires j < 8
    ensures ByteAt(Expand(Word(b0, b1, b2, b3), j), 2) == if BitOf(b2, j) then 2 else 0
  {
    match j {
      case 0 => case 1 => case 2 => case 3 => case 4 => case 5 => case 6 => case 7 =>
    }
  }

  lemma FourthByte(b0: bv8, b1: bv8, b2: bv8, b3: bv8, j: nat)
    requires j < 8
    ensures ByteAt(Expand(Word(b0, b1, b2, b3), j), 3) == if BitOf(b3, j) then 2 else 0
  {
    match j {
      case 0 => case 1 => case 2 => case 3 => case 4 => case 5 => case 6 => case 7 =>
    }
  }

  /** The sign bits of a sub-block of 32 elements: bit `i` of byte `k` is
      element `8k + i`. */
  type Signs = s: seq<bv8> | |s| == 4 witness [0, 0, 0, 0]

  function WordOf(s: Signs): bv32 {
    Word(s[0], s[1], s[2], s[3])
  }

  predicate SignAt(s: Signs, e: nat)
    requires e < 32
  {
    BitOf(s[e / 8], e % 8)
  }

  /** Byte `p` of group `j` holds twice the sign bit of element `8p + j`. */
  lemma ExpandedByte(s: Signs, j: nat, p: nat)
    requires j < 8 && p < 4
    ensures U8(Expand(WordOf(s), j), p) == if SignAt(s, 8 * p + j) then 2 else 0
  {
    hide Expand, Word, BitOf, ByteAt;
    FirstByte(s[0], s[1], s[2], s[3], j);
    SecondByte(s[0], s[1], s[2], s[3], j);
    ThirdByte(s[0], s[1], s[2], s[3], j);
    FourthByte(s[0], s[1], s[2], s[3], j);
    Position(j, p);
    ByteValue(Expand(WordOf(s), j), p);
  }

  lemma Position(j: nat, p: nat)
    requires j < 8 && p < 4
    ensures (8 * p + j) / 8 == p && (8 * p + j) % 8 == j
  {
  }

  lemma ByteValue(w: bv32, p: nat)
    requires p < 4
    ensures ByteAt(w, p) == 2 ==> U8(w, p) == 2
    ensures ByteAt(w, p) == 0 ==> U8(w, p) == 0
  {
    hide ByteAt;
  }

  // ----- the permuted activations ---------------------------------------------------

  /** Where element `e` of a sub-block is stored. */
  function Perm32(e: nat): (o: nat)
    requires e < 32
    ensures o < 32
  {
    4 * (e % 8) + e / 8
  }

  /** The element stored at `o`. */
  function Unperm32(o: nat): (e: nat)
    requires o < 32
    ensures e < 32
  {
    8 * (o % 4) + o / 4
  }

  lemma PermIsBijective(e: nat)
    requires e < 32
    ensures Unperm32(Perm32(e)) == e && Perm32(Unperm32(e)) == e
  {
    assert e == 8 * (e / 8) + e % 8 && e == 4 * (e / 4) + e % 4;
    assert (4 * (e % 8) + e / 8) / 4 == e % 8 && (4 * (e % 8) + e / 8) % 4 == e / 8;
    assert (8 * (e % 4) + e / 4) / 8 == e % 4 && (8 * (e % 4) + e / 4) % 8 == e / 4;
  }

  type Sub = q: seq<int> | |q| == 32 witness Zeros(32)

  function Zeros(n: nat): (r: seq<int>)
    ensures |r| == n && forall i | 0 <= i < n :: r[i] == 0
  {
    if n == 0 then [] else Zeros(n - 1) + [0]
  }

  predicate Int8(q: seq<int>) {
    forall i | 0 <= i < |q| :: -127 <= q[i] <= 127
  }

  predicate IsPermuted(x: Sub, q: Sub) {
    forall o | 0 <= o < 32 :: x[o] == q[Unperm32(o)]
  }

  /** Gathering by `Unperm32` puts every element where `Perm32` says it is. */
  lemma PermutedByPerm32(x: Sub, q: Sub)
    ensures IsPermuted(x, q) <==> forall e: nat | e < 32 :: x[Perm32(e)] == q[e]
  {
    if IsPermuted(x, q) {
      forall e: nat | e < 32 ensures x[Perm32(e)] == q[e] {
        PermIsBijective(e);
      }
    }
    if forall e: nat | e < 32 :: x[Perm32(e)] == q[e] {
      forall o: nat | o < 32 ensures x[o] == q[Unperm32(o)] {
        PermIsBijective(o);
        assert x[Perm32(Unperm32(o))] == q[Unperm32(o)];
      }
    }
  }

  // ----- sums ----------------------------------------------------------------------------

  function Sum(s: seq<int>): int {
    if s == [] then 0 else Sum(s[..|s| - 1]) + s[|s| - 1]
  }

  lemma {:induction false} SumAppend(a: seq<int>, b: seq<int>)
    ensures Sum(a + b) == Sum(a) + Sum(b)
    decreases |b|
  {
    if b == [] {
      assert a + b == a;
    } else {
      assert (a + b)[..|a + b| - 1] == a + b[..|b| - 1];
      SumAppend(a, b[..|b| - 1]);
    }
  }

  lemma {:induction false} SumBound(s: seq<int>, c: int)
    requires c >= 0 && forall i | 0 <= i < |s| :: -c <= s[i] <= c
    ensures -c * |s| <= Sum(s) <= c * |s|
  {
    if s != [] {
      SumBound(s[..|s| - 1], c);
      assert c * |s| == c * (|s| - 1) + c;
      assert -c * |s| == -c * (|s| - 1) - c;
    }
  }

  lemma SumStep(s: seq<int>, n: nat)
    requires n < |s|
    ensures Sum(s[..n + 1]) == Sum(s[..n]) + s[n]
  {
    assert s[..n + 1][..n] == s[..n];
  }

  lemma {:induction false} SumMinus(a: seq<int>, b: seq<int>, c: seq<int>)
    requires |a| == |b| == |c| && forall i | 0 <= i < |a| :: c[i] == a[i] - b[i]
    ensures Sum(c) == Sum(a) - Sum(b)
  {
    if a != [] {
      var n := |a| - 1;
      SumMinus(a[..n], b[..n], c[..n]);
    }
  }

  // ----- one sub-block, as the reference and as the kernels compute it ------------------------

  /** `bit ? q : -q` of every element. */
  function Signed(s: Signs, q: Sub): (r: Sub)
    ensures forall e | 0 <= e < 32 :: r[e] == if SignAt(s, e) then q[e] else -q[e]
  {
    seq(32, e requires 0 <= e < 32 => if SignAt(s, e) then q[e] else -q[e])
  }

  function Doubled(s: Signs, q: Sub): (r: Sub)
    ensures forall e | 0 <= e < 32 :: r[e] == if SignAt(s, e) then 2 * q[e] else 0
  {
    seq(32, e requires 0 <= e < 32 => if SignAt(s, e) then 2 * q[e] else 0)
  }

  /** Starting at minus the sum, adding twice the elements whose bit is set
      gives the signed dot product. */
  lemma DoubledMinusSum(s: Signs, q: Sub)
    ensures Sum(Signed(s, q)) == Sum(Doubled(s, q)) - Sum(q)
  {
    SumMinus(Doubled(s, q), q, Signed(s, q));
  }

  function Wrap32(x: int): int {
    (x + 0x8000_0000) % 0x1_0000_0000 - 0x8000_0000
  }

  function Wrap16(x: int): int {
    (x + 0x8000) % 0x1_0000 - 0x8000
  }

  function Sat16(x: int): int {
    if x > 0x7FFF then 0x7FFF else if x < -0x8000 then -0x8000 else x
  }

  function Pair(w: bv32, x: seq<int>, g: nat, h: nat): int
    requires |x| == 32 && g < 8 && h < 2
  {
    U8(w, 2 * h) * x[4 * g + 2 * h] + U8(w, 2 * h + 1) * x[4 * g + 2 * h + 1]
  }

  /** Four products added to a 32-bit lane. */
  function Dpbusd(acc: int, w: bv32, x: seq<int>, g: nat): int
    requires |x| == 32 && g < 8
  {
    Wrap32(acc + (Pair(w, x, g, 0) + Pair(w, x, g, 1)))
  }

  type Groups = ws: seq<bv32> | |ws| == 8 witness [0, 0, 0, 0, 0, 0, 0, 0]

  /** The accumulator after `g` groups of a sub-block. */
  function Accumulated(acc: int, ws: Groups, x: Sub, g: nat): int
    requires g <= 8
  {
    if g == 0 then acc else Dpbusd(Accumulated(acc, ws, x, g - 1), ws[g - 1], x, g - 1)
  }

  /** Without the four-product instruction: saturated pair sums in two 16-bit
      halves. */
  function Half(ws: Groups, x: Sub, h: nat, g: nat): int
    requires g <= 8 && h < 2
  {
    if g == 0 then 0 else Wrap16(Half(ws, x, h, g - 1) + Sat16(Pair(ws[g - 1], x, g - 1, h)))
  }

  function AccumulatedByHalves(acc: int, ws: Groups, x: Sub): int {
    Wrap32(acc + (Half(ws, x, 0, 8) + Half(ws, x, 1, 8)))
  }

  /** The expanded groups of a sub-block. */
  ghost predicate Expanded(ws: Groups, s: Signs) {
    forall g | 0 <= g < 8 :: ws[g] == Expand(WordOf(s), g)
  }

  lemma PairIs(ws: Groups, s: Signs, x: Sub, q: Sub, g: nat, h: nat)
    requires Expanded(ws, s) && IsPermuted(x, q) && g < 8 && h < 2
    ensures Pair(ws[g], x, g, h) == Doubled(s, q)[16 * h + g] + Doubled(s, q)[16 * h + 8 + g]
  {
    hide Expand, Word, U8, SignAt;
    ExpandedByte(s, g, 2 * h);
    ExpandedByte(s, g, 2 * h + 1);
    assert Unperm32(4 * g + 2 * h) == 16 * h + g && Unperm32(4 * g + 2 * h + 1) == 16 * h + 8 + g;
  }

  /** Terms of the first `g` groups, read from byte `h` and `h + 1`. */
  function Rows(t: Sub, h: nat, g: nat): int
    requires h < 2 && g <= 8
  {
    Sum(t[16 * h..16 * h + g]) + Sum(t[16 * h + 8..16 * h + 8 + g])
  }

  lemma RowsStep(t: Sub, h: nat, g: nat)
    requires h < 2 && g < 8
    ensures Rows(t, h, g + 1) == Rows(t, h, g) + t[16 * h + g] + t[16 * h + 8 + g]
  {
    var a, b := t[16 * h..16 * h + 8], t[16 * h + 8..16 * h + 16];
    SumStep(a, g);
    SumStep(b, g);
    assert a[..g + 1] == t[16 * h..16 * h + g + 1] && a[..g] == t[16 * h..16 * h + g];
    assert b[..g + 1] == t[16 * h + 8..16 * h + 8 + g + 1] && b[..g] == t[16 * h + 8..16 * h + 8 + g];
  }

  lemma RowsEmpty(t: Sub, h: nat)
    requires h < 2
    ensures Rows(t, h, 0) == 0
  {
  }

  lemma RowsBound(t: Sub, h: nat, g: nat)
    requires h < 2 && g <= 8 && forall e | 0 <= e < 32 :: -254 <= t[e] <= 254
    ensures -508 * g <= Rows(t, h, g) <= 508 * g
  {
    hide Sum;
    SumBound(t[16 * h..16 * h + g], 254);
    SumBound(t[16 * h + 8..16 * h + 8 + g], 254);
  }

  lemma AllRows(t: Sub)
    ensures Rows(t, 0, 8) + Rows(t, 1, 8) == Sum(t)
  {
    hide Sum;
    var a, b, c, d := t[0..8], t[8..16], t[16..24], t[24..32];
    SumAppend(a, b);
    SumAppend(c, d);
    SumAppend(a + b, c + d);
    assert a + b + (c + d) == t;
  }

  /** Far enough from overflow for one more sub-block. */
  predicate Roomy(acc: int) {
    -(0x7FFF_FFFF - 8128) <= acc <= 0x7FFF_FFFF - 8128
  }

  lemma DoubledBound(s: Signs, q: Sub)
    requires Int8(q)
    ensures forall e | 0 <= e < 32 :: -254 <= Doubled(s, q)[e] <= 254
  {
  }

  lemma {:induction false} AccumulatedIs(acc: int, ws: Groups, s: Signs, x: Sub, q: Sub, g: nat)
    requires Roomy(acc) && Expanded(ws, s) && IsPermuted(x, q) && Int8(q) && g <= 8
    ensures Accumulated(acc, ws, x, g) == acc + Rows(Doubled(s, q), 0, g) + Rows(Doubled(s, q), 1, g)
  {
    hide Expand, Word, Rows, Pair, IsPermuted, Int8, Doubled;
    var t := Doubled(s, q);
    if g == 0 {
      RowsEmpty(t, 0);
      RowsEmpty(t, 1);
    } else {
      AccumulatedIs(acc, ws, s, x, q, g - 1);
      PairIs(ws, s, x, q, g - 1, 0);
      PairIs(ws, s, x, q, g - 1, 1);
      RowsStep(t, 0, g - 1);
      RowsStep(t, 1, g - 1);
      DoubledBound(s, q);
      RowsBound(t, 0, g);
      RowsBound(t, 1, g);
    }
  }

  /** No saturation and no 16-bit overflow: eight pair sums stay within 4064. */
  lemma {:induction false} HalfIs(ws: Groups, s: Signs, x: Sub, q: Sub, h: nat, g: nat)
    requires Expanded(ws, s) && IsPermuted(x, q) && Int8(q) && g <= 8 && h < 2
    ensures Half(ws, x, h, g) == Rows(Doubled(s, q), h, g) && -4064 <= Half(ws, x, h, g) <= 4064
  {
    hide Expand, Word, Rows, Pair, IsPermuted, Int8, Doubled;
    var t := Doubled(s, q);
    DoubledBound(s, q);
    RowsBound(t, h, g);
    if g == 0 {
      RowsEmpty(t, h);
    } else {
      HalfIs(ws, s, x, q, h, g - 1);
      PairIs(ws, s, x, q, g - 1, h);
      RowsStep(t, h, g - 1);
    }
  }

  /** Both instruction sequences add exactly the doubled dot product. */
  lemma SubBlockIs(acc: int, ws: Groups, s: Signs, x: Sub, q: Sub)
    requires Roomy(acc) && Expanded(ws, s) && IsPermuted(x, q) && Int8(q)
    ensures Accumulated(acc, ws, x, 8) == acc + Sum(Doubled(s, q))
    ensures AccumulatedByHalves(acc, ws, x) == acc + Sum(Doubled(s, q))
    ensures -8128 <= Sum(Doubled(s, q)) <= 8128
  {
    hide Expand, Word, Rows, Pair, IsPermuted, Int8, Doubled, Sum;
    AccumulatedIs(acc, ws, s, x, q, 8);
    HalfIs(ws, s, x, q, 0, 8);
    HalfIs(ws, s, x, q, 1, 8);
    AllRows(Doubled(s, q));
  }
}
