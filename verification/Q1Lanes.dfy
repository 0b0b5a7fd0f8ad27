/** Vectors of lanes: one weight row per lane, every expanded group used by all
    tokens of a tile. */
module Q1Lanes {
  import opened Q1Bits
  import opened Q1Reference

  /** Sums of four products at once, or 16-bit pair sums. */
  datatype Instr = FourProducts | PairSums

  /** By token, then by lane. */
  type IntTile = seq<seq<int>>
  type FloatTile = seq<seq<Float>>

  predicate IsTile<T>(v: seq<seq<T>>, tile: nat, lanes: nat) {
    |v| == tile && forall i | 0 <= i < tile :: |v[i]| == lanes
  }

  /** The groups of a sub-block, by group, then by lane. */
  type GroupTile = seq<seq<bv32>>

  function LaneGroups(ws: GroupTile, lanes: nat, l: nat): Groups
    requires IsTile(ws, 8, lanes) && l < lanes
  {
    seq(8, g requires 0 <= g < 8 => ws[g][l])
  }

  function Added(instr: Instr, acc: int, ws: Groups, x: Sub): int {
    match instr
    case FourProducts => Accumulated(acc, ws, x, 8)
    case PairSums => AccumulatedByHalves(acc, ws, x)
  }

  /** Add one sub-block to the accumulators of every token. */
  method SubBlock(instr: Instr, ws: GroupTile, xs: seq<Sub>, iacc: IntTile, lanes: nat) returns (r: IntTile)
    requires IsTile(ws, 8, lanes) && IsTile(iacc, |xs|, lanes)
    ensures IsTile(r, |xs|, lanes)
    ensures forall i, l | 0 <= i < |xs| && 0 <= l < lanes ::
      r[i][l] == Added(instr, iacc[i][l], LaneGroups(ws, lanes, l), xs[i])
  {
    hide LaneGroups, Half, Accumulated, Wrap32;
    match instr {
      case FourProducts =>
        r := SubBlockFour(ws, xs, iacc, lanes);
      case PairSums =>
        var lo := SubBlockHalf(ws, xs, 0, lanes);
        var hi := SubBlockHalf(ws, xs, 1, lanes);
        r := seq(|xs|, i requires 0 <= i < |xs| =>
          seq(lanes, l requires 0 <= l < lanes => Wrap32(iacc[i][l] + (lo[i][l] + hi[i][l]))));
    }
  }

  method SubBlockFour(ws: GroupTile, xs: seq<Sub>, iacc: IntTile, lanes: nat) returns (r: IntTile)
    requires IsTile(ws, 8, lanes) && IsTile(iacc, |xs|, lanes)
    ensures IsTile(r, |xs|, lanes)
    ensures forall i, l | 0 <= i < |xs| && 0 <= l < lanes ::
      r[i][l] == Accumulated(iacc[i][l], LaneGroups(ws, lanes, l), xs[i], 8)
  {
    hide Dpbusd;
    r := iacc;
    for g := 0 to 8
      invariant IsTile(r, |xs|, lanes)
      invariant forall i, l | 0 <= i < |xs| && 0 <= l < lanes ::
        r[i][l] == Accumulated(iacc[i][l], LaneGroups(ws, lanes, l), xs[i], g)
    {
      for i := 0 to |xs|
        invariant IsTile(r, |xs|, lanes)
        invariant forall i', l | 0 <= i' < |xs| && 0 <= l < lanes ::
          r[i'][l] == Accumulated(iacc[i'][l], LaneGroups(ws, lanes, l), xs[i'], if i' < i then g + 1 else g)
      {
        r := r[i := DpbusdLanes(ws[g], g, r[i], xs[i])];
      }
    }
  }

  function DpbusdLanes(wg: seq<bv32>, g: nat, acc: seq<int>, x: Sub): (r: seq<int>)
    requires g < 8 && |acc| == |wg|
    ensures |r| == |acc| && forall l | 0 <= l < |acc| :: r[l] == Dpbusd(acc[l], wg[l], x, g)
  {
    seq(|acc|, l requires 0 <= l < |acc| => Dpbusd(acc[l], wg[l], x, g))
  }

  /** The 16-bit sums of one half of every lane. */
  method SubBlockHalf(ws: GroupTile, xs: seq<Sub>, h: nat, lanes: nat) returns (r: IntTile)
    requires IsTile(ws, 8, lanes) && h < 2
    ensures IsTile(r, |xs|, lanes)
    ensures forall i, l | 0 <= i < |xs| && 0 <= l < lanes :: r[i][l] == Half(LaneGroups(ws, lanes, l), xs[i], h, 8)
  {
    hide Pair;
    r := seq(|xs|, i => seq(lanes, l => 0));
    for g := 0 to 8
      invariant IsTile(r, |xs|, lanes)
      invariant forall i, l | 0 <= i < |xs| && 0 <= l < lanes :: r[i][l] == Half(LaneGroups(ws, lanes, l), xs[i], h, g)
    {
      for i := 0 to |xs|
        invariant IsTile(r, |xs|, lanes)
        invariant forall i', l | 0 <= i' < |xs| && 0 <= l < lanes ::
          r[i'][l] == Half(LaneGroups(ws, lanes, l), xs[i'], h, if i' < i then g + 1 else g)
      {
        r := r[i := PairLanes(ws[g], g, h, r[i], xs[i])];
      }
    }
  }

  function PairLanes(wg: seq<bv32>, g: nat, h: nat, acc: seq<int>, x: Sub): (r: seq<int>)
    requires g < 8 && h < 2 && |acc| == |wg|
    ensures |r| == |acc| && forall l | 0 <= l < |acc| :: r[l] == Wrap16(acc[l] + Sat16(Pair(wg[l], x, g, h)))
  {
    seq(|acc|, l requires 0 <= l < |acc| => Wrap16(acc[l] + Sat16(Pair(wg[l], x, g, h))))
  }

  function Lanes(acc: seq<int>, d: Float, part: seq<Float>): (r: seq<Float>)
    requires |acc| == |part|
    ensures |r| == |acc| && forall l | 0 <= l < |acc| :: r[l] == Fma(FromInt(acc[l]), d, part[l])
  {
    seq(|acc|, l requires 0 <= l < |acc| => Fma(FromInt(acc[l]), d, part[l]))
  }

  function ScaledLanes(part: seq<Float>, dw: seq<Float>, y: seq<Float>): (r: seq<Float>)
    requires |part| == |dw| == |y|
    ensures |r| == |y| && forall l | 0 <= l < |y| :: r[l] == Fma(part[l], dw[l], y[l])
  {
    seq(|y|, l requires 0 <= l < |y| => Fma(part[l], dw[l], y[l]))
  }

  /** On a row and token, a sub-block adds exactly its part of the dot. */
  lemma SubBlockAddsDot(instr: Instr, acc: int, ws: Groups, w: Weight, a: Acts, r: nat, t: nat, k: nat, x: Sub)
    requires InRange(w, a, r, t) && k < Nsub(a) && Roomy(acc) && w.cols == 32 * (w.cols / 32)
    requires Expanded(ws, SignsOf(w, r, k)) && 32 * k + 32 <= |a.qp[t]| && x == Sub32(a.qp[t], k)
    ensures Added(instr, acc, ws, x) == acc + SubDot(w, a, r, t, k)
  {
    hide Expanded, Sum, Doubled, Accumulated, AccumulatedByHalves, Roomy;
    RowSizes(w, a, r, t);
    var q := Sub32(a.q[t], k);
    assert IsPermuted(x, q) && Int8(q);
    SubBlockIs(acc, ws, SignsOf(w, r, k), x, q);
  }

  lemma BlockAccStep(w: Weight, a: Acts, r: nat, t: nat, j: nat, s: nat)
    requires InRange(w, a, r, t) && j < Nab(a) && s < Spa(a)
    ensures j * Spa(a) + s < Nsub(a)
    ensures BlockAcc(w, a, r, t, j, s + 1) == BlockAcc(w, a, r, t, j, s) + SubDot(w, a, r, t, j * Spa(a) + s)
  {
    hide RowOk, SubDot;
    SubInside(a, j, s);
  }

  lemma PartStep(w: Weight, a: Acts, r: nat, t: nat, b: nat, m: nat, j: nat)
    requires InRange(w, a, r, t) && b < Nb(w) && m < Apw(w, a) && j == b * Apw(w, a) + m < Nab(a)
    ensures Part(w, a, r, t, b, m + 1) == Fma(FromInt(IntDot(w, a, r, t, j)), a.d[t][j], Part(w, a, r, t, b, m))
  {
    hide IntDot;
  }

  lemma RowSumStep(w: Weight, a: Acts, r: nat, t: nat, b: nat)
    requires InRange(w, a, r, t) && b < Nb(w)
    ensures RowSum(w, a, r, t, b + 1) == Fma(Part(w, a, r, t, b, Apw(w, a)), w.scale[r][b], RowSum(w, a, r, t, b))
  {
    hide Part, ActsOk;
  }
}
