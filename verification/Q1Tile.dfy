/** The token-tiled kernel: a slab of rows against tiles of tokens, with the row
    sums spilled between chunks of columns. */
module Q1Tile {
  import opened Q1Bits
  import opened Q1Reference
  import opened Q1Buffers
  import opened Q1Lanes

  datatype Job = Job(w: Weight, a: Acts, p: Packed, s: Slab, r0: nat)

  ghost predicate Shaped(job: Job) {
    Compatible(job.w, job.a) && PackedShape(job.p, job.a) && SlabShape(job.s, job.w)
  }

  ghost predicate Ready(job: Job)
    reads job.p.x, job.p.ns, job.p.dx, job.s.wexp, job.s.dw
  {
    Shaped(job) && AllPacked(job.p, job.a) && SlabFilled(job.s, job.w, job.r0)
  }

  /** Lane `l` and token `i` of tile `c` are a row and a token, not padding. */
  predicate Real(job: Job, c: nat, i: nat, l: nat) {
    c * job.p.tile + i < job.a.n && job.r0 + l < job.w.rows
  }

  /** The expanded groups of sub-block `k`. */
  method LoadGroups(s: Slab, k: nat) returns (ws: GroupTile)
    requires k < s.wexp.Length0 && s.wexp.Length1 == 8 && s.wexp.Length2 == s.lanes
    ensures IsTile(ws, 8, s.lanes) && forall g, l | 0 <= g < 8 && 0 <= l < s.lanes :: ws[g][l] == s.wexp[k, g, l]
  {
    ws := [];
    for g := 0 to 8
      invariant |ws| == g && forall g' | 0 <= g' < g :: |ws[g']| == s.lanes
      invariant forall g', l | 0 <= g' < g && 0 <= l < s.lanes :: ws[g'][l] == s.wexp[k, g', l]
    {
      var row: seq<bv32> := [];
      for l := 0 to s.lanes
        invariant |row| == l && forall l' | 0 <= l' < l :: row[l'] == s.wexp[k, g, l']
      {
        row := row + [s.wexp[k, g, l]];
      }
      ws := ws + [row];
    }
  }

  /** The permuted activations of the tile's tokens. */
  method LoadTokens(p: Packed, c: nat, k: nat) returns (xs: seq<Sub>)
    requires c < p.x.Length0 && k < p.x.Length1 && p.x.Length2 == p.tile
    ensures |xs| == p.tile && forall i | 0 <= i < p.tile :: xs[i] == p.x[c, k, i]
  {
    xs := [];
    for i := 0 to p.tile
      invariant |xs| == i && forall i' | 0 <= i' < i :: xs[i'] == p.x[c, k, i']
    {
      xs := xs + [p.x[c, k, i]];
    }
  }

  // ----- one activation block ----------------------------------------------------------

  /** On a real lane and token, a sub-block adds exactly its part of the dot. */
  lemma SubBlockAdds(job: Job, instr: Instr, c: nat, j: nat, s: nat, i: nat, l: nat, k: nat, ws: GroupTile, x: Sub)
    requires Ready(job) && c < job.p.x.Length0 && i < job.p.tile && l < job.s.lanes && Real(job, c, i, l)
    requires j < Nab(job.a) && s < Spa(job.a) && k == j * Spa(job.a) + s && k < Nsub(job.a)
    requires Loaded(job, k, ws) && x == job.p.x[c, k, i]
    ensures Added(instr, BlockAcc(job.w, job.a, job.r0 + l, c * job.p.tile + i, j, s), LaneGroups(ws, job.s.lanes, l), x) ==
      BlockAcc(job.w, job.a, job.r0 + l, c * job.p.tile + i, j, s + 1)
  {
    hide BlockAcc, Roomy, Accumulated, AccumulatedByHalves, Sum, RowOk, Expand, WordOf, SubDot, IsPermuted, Int8;
    var r, t := job.r0 + l, c * job.p.tile + i;
    AccRoomy(job.w, job.a, r, t, j, s);
    BlockAccStep(job.w, job.a, r, t, j, s);
    SlotsHold(job, c, k, i, l, ws);
    SubBlockAddsDot(instr, BlockAcc(job.w, job.a, r, t, j, s), LaneGroups(ws, job.s.lanes, l), job.w, job.a, r, t, k, x);
  }

  ghost predicate Loaded(job: Job, k: nat, ws: GroupTile)
    requires Shaped(job) && k < Nsub(job.a)
    reads job.s.wexp
  {
    IsTile(ws, 8, job.s.lanes) && forall g, l | 0 <= g < 8 && 0 <= l < job.s.lanes :: ws[g][l] == job.s.wexp[k, g, l]
  }

  /** What the buffers hold for a real lane and token. */
  lemma SlotsHold(job: Job, c: nat, k: nat, i: nat, l: nat, ws: GroupTile)
    requires Ready(job) && c < job.p.x.Length0 && i < job.p.tile && l < job.s.lanes && Real(job, c, i, l)
    requires k < Nsub(job.a) && Loaded(job, k, ws)
    ensures job.w.cols == 32 * (job.w.cols / 32) && Nsub(job.a) == job.w.cols / 32
    ensures Expanded(LaneGroups(ws, job.s.lanes, l), SignsOf(job.w, job.r0 + l, k))
    ensures 32 * k + 32 <= |job.a.qp[c * job.p.tile + i]|
    ensures job.p.x[c, k, i] == Sub32(job.a.qp[c * job.p.tile + i], k)
  {
    hide RowOk, Expand, WordOf, SignsOf, NegSum;
    ColsWhole(job.w);
    SumsInside(job.a, c * job.p.tile + i);
    assert LaneFilled(job.s, job.w, job.r0, l) && TokenPacked(job.p, job.a, c, i);
  }

  /** The accumulators of activation block `j`: started at minus the block's
      sum, they end at its exact dot product. */
  method Block(job: Job, instr: Instr, c: nat, j: nat) returns (iacc: IntTile)
    requires Ready(job) && c < job.p.x.Length0 && j < Nab(job.a)
    ensures IsTile(iacc, job.p.tile, job.s.lanes)
    ensures forall i, l | 0 <= i < job.p.tile && 0 <= l < job.s.lanes && Real(job, c, i, l) ::
      iacc[i][l] == IntDot(job.w, job.a, job.r0 + l, c * job.p.tile + i, j)
  {
    hide BlockAcc, IntDot, Added, AllPacked, SlabFilled, WeightOk, ActsOk;
    iacc := Start(job, c, j);
    for s := 0 to Spa(job.a)
      invariant IsTile(iacc, job.p.tile, job.s.lanes)
      invariant forall i, l | 0 <= i < job.p.tile && 0 <= l < job.s.lanes && Real(job, c, i, l) ::
        iacc[i][l] == BlockAcc(job.w, job.a, job.r0 + l, c * job.p.tile + i, j, s)
    {
      SubInside(job.a, j, s);
      var was := iacc;
      var k := j * Spa(job.a) + s;
      var ws := LoadGroups(job.s, k);
      var xs := LoadTokens(job.p, c, k);
      iacc := SubBlock(instr, ws, xs, was, job.s.lanes);
      AddsEverywhere(job, instr, c, j, s, k, ws, xs, was, iacc);
    }
    ExactEverywhere(job, c, j, iacc);
  }

  lemma AddsEverywhere(job: Job, instr: Instr, c: nat, j: nat, s: nat, k: nat, ws: GroupTile, xs: seq<Sub>, was: IntTile,
                       now: IntTile)
    requires Ready(job) && c < job.p.x.Length0 && j < Nab(job.a) && s < Spa(job.a)
    requires k == j * Spa(job.a) + s && k < Nsub(job.a) && Loaded(job, k, ws)
    requires |xs| == job.p.tile && forall i | 0 <= i < job.p.tile :: xs[i] == job.p.x[c, k, i]
    requires IsTile(was, job.p.tile, job.s.lanes) && IsTile(now, job.p.tile, job.s.lanes)
    requires forall i, l | 0 <= i < job.p.tile && 0 <= l < job.s.lanes && Real(job, c, i, l) ::
      was[i][l] == BlockAcc(job.w, job.a, job.r0 + l, c * job.p.tile + i, j, s)
    requires forall i, l | 0 <= i < job.p.tile && 0 <= l < job.s.lanes ::
      now[i][l] == Added(instr, was[i][l], LaneGroups(ws, job.s.lanes, l), xs[i])
    ensures forall i, l | 0 <= i < job.p.tile && 0 <= l < job.s.lanes && Real(job, c, i, l) ::
      now[i][l] == BlockAcc(job.w, job.a, job.r0 + l, c * job.p.tile + i, j, s + 1)
  {
    hide BlockAcc, Added, AllPacked, SlabFilled, WeightOk, ActsOk;
    forall i, l | 0 <= i < job.p.tile && 0 <= l < job.s.lanes && Real(job, c, i, l)
      ensures now[i][l] == BlockAcc(job.w, job.a, job.r0 + l, c * job.p.tile + i, j, s + 1)
    {
      SubBlockAdds(job, instr, c, j, s, i, l, k, ws, xs[i]);
    }
  }

  lemma ExactEverywhere(job: Job, c: nat, j: nat, iacc: IntTile)
    requires Ready(job) && c < job.p.x.Length0 && j < Nab(job.a) && IsTile(iacc, job.p.tile, job.s.lanes)
    requires forall i, l | 0 <= i < job.p.tile && 0 <= l < job.s.lanes && Real(job, c, i, l) ::
      iacc[i][l] == BlockAcc(job.w, job.a, job.r0 + l, c * job.p.tile + i, j, Spa(job.a))
    ensures forall i, l | 0 <= i < job.p.tile && 0 <= l < job.s.lanes && Real(job, c, i, l) ::
      iacc[i][l] == IntDot(job.w, job.a, job.r0 + l, c * job.p.tile + i, j)
  {
    hide BlockAcc, IntDot, AllPacked, SlabFilled, WeightOk, ActsOk;
    forall i, l | 0 <= i < job.p.tile && 0 <= l < job.s.lanes && Real(job, c, i, l)
      ensures iacc[i][l] == IntDot(job.w, job.a, job.r0 + l, c * job.p.tile + i, j)
    {
      BlockDot(job.w, job.a, job.r0 + l, c * job.p.tile + i, j);
    }
  }

  /** Every lane starts at minus the sum of its token's block. */
  method Start(job: Job, c: nat, j: nat) returns (iacc: IntTile)
    requires Ready(job) && c < job.p.x.Length0 && j < Nab(job.a)
    ensures IsTile(iacc, job.p.tile, job.s.lanes)
    ensures forall i, l | 0 <= i < job.p.tile && 0 <= l < job.s.lanes && Real(job, c, i, l) ::
      iacc[i][l] == BlockAcc(job.w, job.a, job.r0 + l, c * job.p.tile + i, j, 0)
  {
    hide NegSum, SlabFilled, RowOk, WeightOk;
    iacc := [];
    for i := 0 to job.p.tile
      invariant |iacc| == i && forall i' | 0 <= i' < i :: |iacc[i']| == job.s.lanes
      invariant forall i', l | 0 <= i' < i && 0 <= l < job.s.lanes :: iacc[i'][l] == job.p.ns[c, j, i']
    {
      var start := job.p.ns[c, j, i];
      iacc := iacc + [seq(job.s.lanes, l => start)];
    }
    forall i, l | 0 <= i < job.p.tile && 0 <= l < job.s.lanes && Real(job, c, i, l)
      ensures iacc[i][l] == BlockAcc(job.w, job.a, job.r0 + l, c * job.p.tile + i, j, 0)
    {
      assert TokenPacked(job.p, job.a, c, i);
    }
  }

  // ----- weight blocks and row sums -----------------------------------------------------

  /** The partial sums of weight block `b`. */
  method WeightBlock(job: Job, instr: Instr, c: nat, b: nat) returns (part: FloatTile)
    requires Ready(job) && c < job.p.x.Length0 && b < Nb(job.w)
    ensures IsTile(part, job.p.tile, job.s.lanes)
    ensures forall i, l | 0 <= i < job.p.tile && 0 <= l < job.s.lanes && Real(job, c, i, l) ::
      part[i][l] == Part(job.w, job.a, job.r0 + l, c * job.p.tile + i, b, Apw(job.w, job.a))
  {
    hide Part, IntDot, AllPacked, SlabFilled, WeightOk, ActsOk;
    part := seq(job.p.tile, i => seq(job.s.lanes, l => Zero));
    PartStart(job, c, b);
    for m := 0 to Apw(job.w, job.a)
      invariant IsTile(part, job.p.tile, job.s.lanes)
      invariant forall i, l | 0 <= i < job.p.tile && 0 <= l < job.s.lanes && Real(job, c, i, l) ::
        part[i][l] == Part(job.w, job.a, job.r0 + l, c * job.p.tile + i, b, m)
    {
      Geometry(job.w, job.a);
      Inside(b, Nb(job.w), m, Apw(job.w, job.a));
      var j := b * Apw(job.w, job.a) + m;
      var iacc := Block(job, instr, c, j);
      part := AddBlock(job, c, b, m, j, iacc, part);
    }
  }

  lemma PartStart(job: Job, c: nat, b: nat)
    requires Shaped(job) && b < Nb(job.w)
    ensures forall i, l | 0 <= i < job.p.tile && 0 <= l < job.s.lanes && Real(job, c, i, l) ::
      Part(job.w, job.a, job.r0 + l, c * job.p.tile + i, b, 0) == Zero
  {
  }

  method AddBlock(job: Job, c: nat, b: nat, m: nat, j: nat, iacc: IntTile, was: FloatTile) returns (part: FloatTile)
    requires Ready(job) && c < job.p.x.Length0 && b < Nb(job.w) && m < Apw(job.w, job.a)
    requires j == b * Apw(job.w, job.a) + m < Nab(job.a)
    requires IsTile(iacc, job.p.tile, job.s.lanes) && IsTile(was, job.p.tile, job.s.lanes)
    requires forall i, l | 0 <= i < job.p.tile && 0 <= l < job.s.lanes && Real(job, c, i, l) ::
      iacc[i][l] == IntDot(job.w, job.a, job.r0 + l, c * job.p.tile + i, j)
    requires forall i, l | 0 <= i < job.p.tile && 0 <= l < job.s.lanes && Real(job, c, i, l) ::
      was[i][l] == Part(job.w, job.a, job.r0 + l, c * job.p.tile + i, b, m)
    ensures IsTile(part, job.p.tile, job.s.lanes)
    ensures forall i, l | 0 <= i < job.p.tile && 0 <= l < job.s.lanes && Real(job, c, i, l) ::
      part[i][l] == Part(job.w, job.a, job.r0 + l, c * job.p.tile + i, b, m + 1)
  {
    hide IntDot, SlabFilled, AllPacked, WeightOk, ActsOk, Part;
    part := [];
    for i := 0 to job.p.tile
      invariant |part| == i && forall i' | 0 <= i' < i :: |part[i']| == job.s.lanes
      invariant forall i', l | 0 <= i' < i && 0 <= l < job.s.lanes && Real(job, c, i', l) ::
        part[i'][l] == Part(job.w, job.a, job.r0 + l, c * job.p.tile + i', b, m + 1)
    {
      var row := Lanes(iacc[i], job.p.dx[c, j, i], was[i]);
      LanesAdd(job, c, b, m, j, i, iacc[i], was[i]);
      part := part + [row];
    }
  }

  lemma ScaleHeld(job: Job, c: nat, j: nat, i: nat)
    requires Ready(job) && c < job.p.x.Length0 && j < Nab(job.a) && i < job.p.tile && c * job.p.tile + i < job.a.n
    ensures |job.a.d[c * job.p.tile + i]| == Nab(job.a) && job.p.dx[c, j, i] == job.a.d[c * job.p.tile + i][j]
  {
    hide RowOk, NegSum, SlabFilled;
    assert TokenPacked(job.p, job.a, c, i);
  }

  lemma LanesAdd(job: Job, c: nat, b: nat, m: nat, j: nat, i: nat, acc: seq<int>, was: seq<Float>)
    requires Ready(job) && c < job.p.x.Length0 && b < Nb(job.w) && m < Apw(job.w, job.a) && i < job.p.tile
    requires j == b * Apw(job.w, job.a) + m < Nab(job.a) && |acc| == |was| == job.s.lanes
    requires forall l | 0 <= l < job.s.lanes && Real(job, c, i, l) ::
      acc[l] == IntDot(job.w, job.a, job.r0 + l, c * job.p.tile + i, j) &&
      was[l] == Part(job.w, job.a, job.r0 + l, c * job.p.tile + i, b, m)
    ensures forall l | 0 <= l < job.s.lanes && Real(job, c, i, l) ::
      Lanes(acc, job.p.dx[c, j, i], was)[l] == Part(job.w, job.a, job.r0 + l, c * job.p.tile + i, b, m + 1)
  {
    hide IntDot, SlabFilled, AllPacked, WeightOk, ActsOk, Part;
    forall l | 0 <= l < job.s.lanes && Real(job, c, i, l)
      ensures Lanes(acc, job.p.dx[c, j, i], was)[l] == Part(job.w, job.a, job.r0 + l, c * job.p.tile + i, b, m + 1)
    {
      ScaleHeld(job, c, j, i);
      PartStep(job.w, job.a, job.r0 + l, c * job.p.tile + i, b, m, j);
    }
  }

  ghost predicate HasSums(job: Job, c: nat, b: nat, y: FloatTile) {
    Shaped(job) && b <= Nb(job.w) && IsTile(y, job.p.tile, job.s.lanes) &&
    forall i, l | 0 <= i < job.p.tile && 0 <= l < job.s.lanes && Real(job, c, i, l) ::
      y[i][l] == RowSum(job.w, job.a, job.r0 + l, c * job.p.tile + i, b)
  }

  method LoadScales(job: Job, b: nat) returns (dw: seq<Float>)
    requires Ready(job) && b < Nb(job.w)
    ensures |dw| == job.s.lanes
    ensures forall l | 0 <= l < job.s.lanes && job.r0 + l < job.w.rows :: dw[l] == job.w.scale[job.r0 + l][b]
  {
    hide RowOk, GroupWord, AllPacked;
    dw := [];
    for l := 0 to job.s.lanes
      invariant |dw| == l && forall l' | 0 <= l' < l :: dw[l'] == job.s.dw[b, l']
    {
      dw := dw + [job.s.dw[b, l]];
    }
    forall l | 0 <= l < job.s.lanes && job.r0 + l < job.w.rows ensures dw[l] == job.w.scale[job.r0 + l][b] {
      assert LaneFilled(job.s, job.w, job.r0, l);
    }
  }

  /** Weight blocks are added in order. */
  method AddWeightBlock(job: Job, instr: Instr, c: nat, b: nat, was: FloatTile) returns (y: FloatTile)
    requires Ready(job) && c < job.p.x.Length0 && b < Nb(job.w) && HasSums(job, c, b, was)
    ensures HasSums(job, c, b + 1, y)
  {
    hide RowSum, Part, AllPacked, SlabFilled, WeightOk, ActsOk;
    var part := WeightBlock(job, instr, c, b);
    var dw := LoadScales(job, b);
    y := [];
    for i := 0 to job.p.tile
      invariant |y| == i && forall i' | 0 <= i' < i :: |y[i']| == job.s.lanes
      invariant forall i', l | 0 <= i' < i && 0 <= l < job.s.lanes && Real(job, c, i', l) ::
        y[i'][l] == RowSum(job.w, job.a, job.r0 + l, c * job.p.tile + i', b + 1)
    {
      var row := ScaledLanes(part[i], dw, was[i]);
      forall l | 0 <= l < job.s.lanes && Real(job, c, i, l)
        ensures row[l] == RowSum(job.w, job.a, job.r0 + l, c * job.p.tile + i, b + 1)
      {
        RowSumStep(job.w, job.a, job.r0 + l, c * job.p.tile + i, b);
      }
      y := y + [row];
    }
  }

  /** Weight blocks `b0` to `b1` on top of earlier sums. */
  method AddWeightBlocks(job: Job, instr: Instr, c: nat, b0: nat, b1: nat, was: FloatTile) returns (y: FloatTile)
    requires Ready(job) && c < job.p.x.Length0 && b0 <= b1 <= Nb(job.w) && HasSums(job, c, b0, was)
    ensures HasSums(job, c, b1, y)
  {
    hide AllPacked, SlabFilled, WeightOk, ActsOk, HasSums;
    y := was;
    for b := b0 to b1
      invariant HasSums(job, c, b, y)
    {
      y := AddWeightBlock(job, instr, c, b, y);
    }
  }
}
