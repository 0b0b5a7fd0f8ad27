/** One-bit weights and int8 activations, and the reference kernel that defines
    the result of every other one. Floats are terms: two results are equal only
    if the same operations are applied to the same operands in the same order. */
module Q1Reference {
  import opened Q1Bits

  datatype Float = Zero | Input(id: nat) | FromInt(i: int) | Fma(a: Float, b: Float, c: Float)

  /** Sign bits by row, bit `i` of byte `k` being element `8k + i`; one scale
      per block. */
  datatype Weight = Weight(rows: nat, cols: nat, block: nat, bits: seq<seq<bv8>>, scale: seq<seq<Float>>)

  /** Quantized rows: values, scales, permuted values, and minus the sum of
      every sub-block. */
  datatype Acts = Acts(n: nat, cols: nat, block: nat, q: seq<seq<int>>, d: seq<seq<Float>>, qp: seq<seq<int>>,
                       nsum: seq<seq<int>>)

  predicate BlockSize(block: nat) {
    block == 32 || block == 128
  }

  predicate WeightOk(w: Weight) {
    BlockSize(w.block) && w.cols > 0 && w.cols % w.block == 0 && |w.bits| == w.rows == |w.scale| &&
    forall r | 0 <= r < w.rows :: |w.bits[r]| == w.cols / 8 && |w.scale[r]| == w.cols / w.block
  }

  function Sub32(q: seq<int>, k: nat): Sub
    requires 32 * k + 32 <= |q|
  {
    q[32 * k..32 * k + 32]
  }

  /** The values are int8; the derived copies are what they claim. */
  predicate RowOk(cols: nat, q: seq<int>, qp: seq<int>, nsum: seq<int>) {
    |q| == |qp| == cols && cols % 32 == 0 && |nsum| == cols / 32 && Int8(q) &&
    forall k | 0 <= k < cols / 32 :: IsPermuted(Sub32(qp, k), Sub32(q, k)) && nsum[k] == -Sum(Sub32(q, k))
  }

  predicate ActsOk(a: Acts) {
    BlockSize(a.block) && a.cols % a.block == 0 && |a.q| == |a.d| == |a.qp| == |a.nsum| == a.n &&
    forall t | 0 <= t < a.n :: |a.d[t]| == a.cols / a.block && RowOk(a.cols, a.q[t], a.qp[t], a.nsum[t])
  }

  predicate Compatible(w: Weight, a: Acts) {
    WeightOk(w) && ActsOk(a) && w.cols == a.cols && w.block % a.block == 0
  }

  /** Which prepared data can be multiplied: three pairs of block sizes, whole
      blocks only, and copies that hold every element where `Perm32` puts it. */
  lemma LegalShapes(w: Weight, a: Acts)
    requires |w.bits| == |w.scale| == w.rows && |a.q| == |a.d| == |a.qp| == |a.nsum| == a.n
    requires forall r | 0 <= r < w.rows :: |w.bits[r]| == w.cols / 8
    requires forall t | 0 <= t < a.n :: |a.q[t]| == |a.qp[t]| == a.cols && |a.nsum[t]| == a.cols / 32
    requires (w.block, a.block) in {(32, 32), (128, 32), (128, 128)} && w.cols == a.cols > 0 && w.cols % w.block == 0
    requires forall r | 0 <= r < w.rows :: |w.scale[r]| == w.cols / w.block
    requires forall t | 0 <= t < a.n :: |a.d[t]| == a.cols / a.block
    requires forall t, e | 0 <= t < a.n && 0 <= e < a.cols :: -127 <= a.q[t][e] <= 127
    requires forall t, k, e: nat | 0 <= t < a.n && 0 <= k < a.cols / 32 && e < 32 ::
      Sub32(a.qp[t], k)[Perm32(e)] == Sub32(a.q[t], k)[e]
    requires forall t, k | 0 <= t < a.n && 0 <= k < a.cols / 32 :: a.nsum[t][k] == -Sum(Sub32(a.q[t], k))
    ensures Compatible(w, a)
  {
    forall t | 0 <= t < a.n ensures RowOk(a.cols, a.q[t], a.qp[t], a.nsum[t]) {
      forall k | 0 <= k < a.cols / 32
        ensures IsPermuted(Sub32(a.qp[t], k), Sub32(a.q[t], k))
      {
        PermutedByPerm32(Sub32(a.qp[t], k), Sub32(a.q[t], k));
      }
    }
  }

  // ----- geometry -----------------------------------------------------------------

  /** Activation blocks per weight block. */
  function Apw(w: Weight, a: Acts): nat
    requires Compatible(w, a)
  {
    w.block / a.block
  }

  /** Sub-blocks per activation block. */
  function Spa(a: Acts): nat {
    a.block / 32
  }

  function Nb(w: Weight): nat
    requires WeightOk(w)
  {
    w.cols / w.block
  }

  function Nab(a: Acts): nat
    requires ActsOk(a)
  {
    a.cols / a.block
  }

  function Nsub(a: Acts): nat {
    a.cols / 32
  }

  lemma Geometry(w: Weight, a: Acts)
    requires Compatible(w, a)
    ensures Apw(w, a) in {1, 4} && Spa(a) in {1, 4} && a.block == 32 * Spa(a)
    ensures Nab(a) == Nb(w) * Apw(w, a) && Nsub(a) == Nab(a) * Spa(a) && a.cols == 32 * Nsub(a)
    ensures Nb(w) > 0
  {
  }

  lemma Blocks(cols: nat, block: nat)
    requires BlockSize(block) && cols % block == 0
    ensures cols / 32 == (cols / block) * (block / 32) && cols == 32 * (cols / 32) == block * (cols / block)
  {
    if block == 32 {
      assert cols / 32 == (cols / 32) * 1;
    } else {
      assert cols == 128 * (cols / 128);
      assert cols / 32 == (cols / 128) * 4;
    }
  }

  lemma Inside(b: nat, n: nat, i: nat, m: nat)
    requires b < n && i < m
    ensures b * m + i < n * m && (b + 1) * m <= n * m
  {
    assert (b + 1) * m <= n * m;
  }

  // ----- the reference ----------------------------------------------------------------

  predicate ElementBit(bits: seq<bv8>, e: nat)
    requires e < 8 * |bits|
  {
    BitOf(bits[e / 8], e % 8)
  }

  /** `bit ? q : -q` of a whole row. */
  function SignedRow(bits: seq<bv8>, q: seq<int>): (r: seq<int>)
    requires |q| == 8 * |bits|
    ensures |r| == |q| && forall e | 0 <= e < |q| :: r[e] == if ElementBit(bits, e) then q[e] else -q[e]
  {
    seq(|q|, e requires 0 <= e < |q| => if ElementBit(bits, e) then q[e] else -q[e])
  }

  predicate InRange(w: Weight, a: Acts, r: nat, t: nat) {
    Compatible(w, a) && r < w.rows && t < a.n
  }

  /** The exact dot product of activation block `j`. */
  function IntDot(w: Weight, a: Acts, r: nat, t: nat, j: nat): int
    requires InRange(w, a, r, t) && j < Nab(a)
  {
    BlockInside(a, j);
    Sum(SignedRow(w.bits[r], a.q[t])[j * a.block..(j + 1) * a.block])
  }

  lemma BlockInside(a: Acts, j: nat)
    requires ActsOk(a) && j < Nab(a)
    ensures 0 <= j * a.block <= (j + 1) * a.block <= a.cols
  {
    Inside(j, Nab(a), 0, a.block);
  }

  /** Weight block `b` after its first `m` activation blocks. */
  function Part(w: Weight, a: Acts, r: nat, t: nat, b: nat, m: nat): Float
    requires InRange(w, a, r, t) && b < Nb(w) && m <= Apw(w, a)
  {
    if m == 0 then Zero
    else
      Geometry(w, a);
      Inside(b, Nb(w), m - 1, Apw(w, a));
      var j := b * Apw(w, a) + (m - 1);
      Fma(FromInt(IntDot(w, a, r, t, j)), a.d[t][j], Part(w, a, r, t, b, m - 1))
  }

  /** The row sum after `b` weight blocks. */
  function RowSum(w: Weight, a: Acts, r: nat, t: nat, b: nat): Float
    requires InRange(w, a, r, t) && b <= Nb(w)
  {
    if b == 0 then Zero
    else Fma(Part(w, a, r, t, b - 1, Apw(w, a)), w.scale[r][b - 1], RowSum(w, a, r, t, b - 1))
  }

  function Dot(w: Weight, a: Acts, r: nat, t: nat): Float
    requires InRange(w, a, r, t)
  {
    RowSum(w, a, r, t, Nb(w))
  }

  /** The reference kernel: one token against consecutive rows. */
  method DotRowsScalar(w: Weight, r0: nat, a: Acts, t: nat, out: array<Float>)
    requires Compatible(w, a) && t < a.n && r0 + out.Length <= w.rows
    modifies out
    ensures forall i | 0 <= i < out.Length :: out[i] == Dot(w, a, r0 + i, t)
  {
    hide Compatible, RowSum;
    for i := 0 to out.Length
      invariant forall i' | 0 <= i' < i :: out[i'] == Dot(w, a, r0 + i', t)
    {
      out[i] := DotRow(w, a, r0 + i, t);
    }
  }

  method DotRow(w: Weight, a: Acts, r: nat, t: nat) returns (y: Float)
    requires InRange(w, a, r, t)
    ensures y == Dot(w, a, r, t)
  {
    hide Part, ActsOk;
    y := Zero;
    for b := 0 to Nb(w)
      invariant y == RowSum(w, a, r, t, b)
    {
      var p := DotBlocks(w, a, r, t, b);
      y := Fma(p, w.scale[r][b], y);
    }
  }

  method DotBlocks(w: Weight, a: Acts, r: nat, t: nat, b: nat) returns (p: Float)
    requires InRange(w, a, r, t) && b < Nb(w)
    ensures p == Part(w, a, r, t, b, Apw(w, a))
  {
    hide IntDot;
    Geometry(w, a);
    p := Zero;
    for m := 0 to Apw(w, a)
      invariant p == Part(w, a, r, t, b, m)
    {
      Inside(b, Nb(w), m, Apw(w, a));
      var j := b * Apw(w, a) + m;
      var sumi := DotBlock(w, a, r, t, j);
      p := Fma(FromInt(sumi), a.d[t][j], p);
    }
  }

  method DotBlock(w: Weight, a: Acts, r: nat, t: nat, j: nat) returns (sumi: int)
    requires InRange(w, a, r, t) && j < Nab(a)
    ensures sumi == IntDot(w, a, r, t, j)
  {
    hide RowOk, Sum;
    BlockInside(a, j);
    RowSizes(w, a, r, t);
    ghost var signed := SignedRow(w.bits[r], a.q[t])[j * a.block..(j + 1) * a.block];
    sumi := 0;
    SumNothing();
    for e := 0 to a.block
      invariant sumi == Sum(signed[..e])
    {
      var at := j * a.block + e;
      var v := a.q[t][at];
      SumStep(signed, e);
      sumi := sumi + if (w.bits[r][at / 8] >> (at % 8)) & 1 == 1 then v else -v;
    }
    assert signed[..a.block] == signed;
  }

  lemma SumNothing()
    ensures Sum([]) == 0
  {
  }

  // ----- the block dot by sub-blocks -----------------------------------------------------

  function SignsOf(w: Weight, r: nat, k: nat): Signs
    requires WeightOk(w) && r < w.rows && 32 * k + 32 <= w.cols
  {
    w.bits[r][4 * k..4 * k + 4]
  }

  /** What the kernels add for sub-block `k`. */
  function SubDot(w: Weight, a: Acts, r: nat, t: nat, k: nat): int
    requires InRange(w, a, r, t) && k < Nsub(a)
  {
    Sum(Doubled(SignsOf(w, r, k), Sub32(a.q[t], k)))
  }

  /** Minus the sum of the first `s` sub-blocks of activation block `j`. */
  function NegSum(a: Acts, t: nat, j: nat, s: nat): int
    requires ActsOk(a) && t < a.n && j < Nab(a) && s <= Spa(a)
  {
    if s == 0 then 0
    else
      SubInside(a, j, s - 1);
      NegSum(a, t, j, s - 1) + a.nsum[t][j * Spa(a) + (s - 1)]
  }

  lemma SubInside(a: Acts, j: nat, s: nat)
    requires ActsOk(a) && j < Nab(a) && s < Spa(a)
    ensures j * Spa(a) + s < Nsub(a) && Nsub(a) == a.cols / 32 && a.cols == 32 * Nsub(a)
  {
    hide RowOk;
    Blocks(a.cols, a.block);
    Inside(j, Nab(a), s, Spa(a));
  }

  /** The accumulator after `s` sub-blocks of activation block `j`. */
  function BlockAcc(w: Weight, a: Acts, r: nat, t: nat, j: nat, s: nat): int
    requires InRange(w, a, r, t) && j < Nab(a) && s <= Spa(a)
  {
    if s == 0 then NegSum(a, t, j, Spa(a))
    else
      SubInside(a, j, s - 1);
      BlockAcc(w, a, r, t, j, s - 1) + SubDot(w, a, r, t, j * Spa(a) + (s - 1))
  }

  lemma RowSizes(w: Weight, a: Acts, r: nat, t: nat)
    requires InRange(w, a, r, t)
    ensures |a.q[t]| == a.cols == 8 * |w.bits[r]| == 32 * Nsub(a) && |a.nsum[t]| == Nsub(a)
  {
  }

  lemma SignedAt(w: Weight, a: Acts, r: nat, t: nat, k: nat, i: nat)
    requires InRange(w, a, r, t) && k < Nsub(a) && i < 32 && |a.q[t]| == 8 * |w.bits[r]| == 32 * Nsub(a)
    ensures SignedRow(w.bits[r], a.q[t])[32 * k + i] == Signed(SignsOf(w, r, k), Sub32(a.q[t], k))[i]
  {
    hide BitOf, RowOk;
    assert (32 * k + i) / 8 == 4 * k + i / 8 && (32 * k + i) % 8 == i % 8;
  }

  lemma SignedSub(w: Weight, a: Acts, r: nat, t: nat, k: nat)
    requires InRange(w, a, r, t) && k < Nsub(a) && |a.q[t]| == 8 * |w.bits[r]| == 32 * Nsub(a)
    ensures Sum(SignedRow(w.bits[r], a.q[t])[32 * k..32 * k + 32]) == SubDot(w, a, r, t, k) + a.nsum[t][k]
  {
    hide Sum, SignedRow, Signed, Doubled, SignsOf;
    var row, sub := SignedRow(w.bits[r], a.q[t]), Signed(SignsOf(w, r, k), Sub32(a.q[t], k));
    forall i | 0 <= i < 32 ensures row[32 * k + i] == sub[i] {
      SignedAt(w, a, r, t, k, i);
    }
    assert row[32 * k..32 * k + 32] == sub;
    DoubledMinusSum(SignsOf(w, r, k), Sub32(a.q[t], k));
  }

  /** The sum of `n` sub-blocks of a row from sub-block `lo`. */
  function SubSum(row: seq<int>, lo: nat, n: nat): int
    requires 32 * (lo + n) <= |row|
  {
    Sum(row[32 * lo..32 * (lo + n)])
  }

  lemma SubSumStep(row: seq<int>, lo: nat, n: nat)
    requires 32 * (lo + n + 1) <= |row|
    ensures SubSum(row, lo, n + 1) == SubSum(row, lo, n) + Sum(row[32 * (lo + n)..32 * (lo + n) + 32])
    ensures SubSum(row, lo, 0) == 0
  {
    var x, y := row[32 * lo..32 * (lo + n)], row[32 * (lo + n)..32 * (lo + n) + 32];
    SumAppend(x, y);
    assert x + y == row[32 * lo..32 * (lo + n + 1)];
  }

  lemma {:induction false} BlockParts(w: Weight, a: Acts, r: nat, t: nat, j: nat, s: nat, row: seq<int>)
    requires InRange(w, a, r, t) && j < Nab(a) && s <= Spa(a)
    requires |a.q[t]| == 8 * |w.bits[r]| == 32 * Nsub(a) && row == SignedRow(w.bits[r], a.q[t])
    ensures 32 * (j * Spa(a) + s) <= |row|
    ensures SubSum(row, j * Spa(a), s) + NegSum(a, t, j, Spa(a)) == BlockAcc(w, a, r, t, j, s) + NegSum(a, t, j, s)
  {
    hide SubDot, SignedRow, RowOk, SubSum, Sum;
    var lo := j * Spa(a);
    if s == 0 {
      SubInside(a, j, 0);
      SubSumStep(row, lo, 0);
    } else {
      BlockParts(w, a, r, t, j, s - 1, row);
      SubInside(a, j, s - 1);
      SignedSub(w, a, r, t, lo + (s - 1));
      SubSumStep(row, lo, s - 1);
    }
  }

  /** Starting at minus the block's sum and adding every sub-block gives the
      exact block dot of the reference. */
  lemma BlockDot(w: Weight, a: Acts, r: nat, t: nat, j: nat)
    requires InRange(w, a, r, t) && j < Nab(a)
    ensures BlockAcc(w, a, r, t, j, Spa(a)) == IntDot(w, a, r, t, j)
  {
    hide SignedRow, BlockAcc, NegSum, Sum, RowOk;
    Geometry(w, a);
    RowSizes(w, a, r, t);
    BlockParts(w, a, r, t, j, Spa(a), SignedRow(w.bits[r], a.q[t]));
    assert 32 * (j * Spa(a)) == j * a.block;
    assert 32 * (j * Spa(a) + Spa(a)) == (j + 1) * a.block;
  }

  /** No accumulator of a block overflows. */
  lemma {:induction false} AccRoomy(w: Weight, a: Acts, r: nat, t: nat, j: nat, s: nat)
    requires InRange(w, a, r, t) && j < Nab(a) && s <= Spa(a)
    ensures -4 * 4064 - 8128 * s <= BlockAcc(w, a, r, t, j, s) <= 4 * 4064 + 8128 * s
    ensures Roomy(BlockAcc(w, a, r, t, j, s))
  {
    hide SubDot;
    if s == 0 {
      NegSumBound(a, t, j, Spa(a));
    } else {
      SubInside(a, j, s - 1);
      AccRoomy(w, a, r, t, j, s - 1);
      SubDotBound(w, a, r, t, j * Spa(a) + (s - 1));
    }
  }

  lemma SubDotBound(w: Weight, a: Acts, r: nat, t: nat, k: nat)
    requires InRange(w, a, r, t) && k < Nsub(a)
    ensures -8128 <= SubDot(w, a, r, t, k) <= 8128
  {
    hide Sum;
    var q := Sub32(a.q[t], k);
    assert Int8(q);
    DoubledBound(SignsOf(w, r, k), q);
    SumBound(Doubled(SignsOf(w, r, k), q), 254);
  }

  lemma {:induction false} NegSumBound(a: Acts, t: nat, j: nat, s: nat)
    requires ActsOk(a) && t < a.n && j < Nab(a) && s <= Spa(a)
    ensures -4064 * s <= NegSum(a, t, j, s) <= 4064 * s
  {
    hide Sum;
    if s > 0 {
      NegSumBound(a, t, j, s - 1);
      SubInside(a, j, s - 1);
      var q := Sub32(a.q[t], j * Spa(a) + (s - 1));
      assert Int8(q);
      SumBound(q, 127);
    }
  }
}
