/** The small-batch kernel: up to eight tokens share every expanded group of a
    vector of rows, two sub-blocks at a time where that is possible. */
module Q1Multi {
  import opened Wrappers
  import opened Q1Bits
  import opened Q1Reference
  import opened Q1Buffers
  import opened Q1Lanes
  import opened Q1Gemm

  const MULTI_MAX_TOKENS: nat := 8

  /** Tokens `t0` to `t0 + tokens`, the first of tile `c`. */
  datatype MultiJob = MultiJob(w: Weight, a: Acts, p: Packed, instr: Instr, lanes: nat, c: nat, tokens: nat) {
    function T0(): nat {
      c * MULTI_MAX_TOKENS
    }
  }

  ghost predicate Loadable(job: MultiJob)
    reads job.p.x, job.p.ns, job.p.dx
  {
    Compatible(job.w, job.a) && PackedShape(job.p, job.a) && AllPacked(job.p, job.a) && job.p.tile == MULTI_MAX_TOKENS &&
    job.c < job.p.x.Length0 && job.tokens <= MULTI_MAX_TOKENS && job.T0() + job.tokens <= job.a.n && job.lanes > 0
  }

  /** Sign words of one sub-block, one row per lane. */
  function WordsAt(w: Weight, rows: seq<nat>, k: nat): (r: seq<bv32>)
    requires WeightOk(w) && k < w.cols / 32 && forall l | 0 <= l < |rows| :: rows[l] < w.rows
    ensures |r| == |rows|
  {
    ColsWhole(w);
    seq(|rows|, l requires 0 <= l < |rows| => WordOf(SignsOf(w, rows[l], k)))
  }

  /** Expanded on the fly, the doubling folded into the shift. */
  function ExpandWords(words: seq<bv32>): (ws: GroupTile)
    ensures IsTile(ws, 8, |words|)
    ensures forall g, l | 0 <= g < 8 && 0 <= l < |words| :: ws[g][l] == ExpandFolded(words[l], g)
  {
    seq(8, g requires 0 <= g < 8 => seq(|words|, l requires 0 <= l < |words| => ExpandFolded(words[l], g)))
  }

  lemma FoldedIsExpanded(w: Weight, rows: seq<nat>, k: nat, l: nat)
    requires WeightOk(w) && k < w.cols / 32 && (forall l | 0 <= l < |rows| :: rows[l] < w.rows) && l < |rows|
    ensures w.cols == 32 * (w.cols / 32)
    ensures Expanded(LaneGroups(ExpandWords(WordsAt(w, rows, k)), |rows|, l), SignsOf(w, rows[l], k))
  {
    hide Expand, ExpandFolded, WordOf;
    ColsWhole(w);
    var word := WordOf(SignsOf(w, rows[l], k));
    forall g | 0 <= g < 8 ensures ExpandFolded(word, g) == Expand(word, g) {
      SameExpansion(word, g);
    }
  }

  // ----- where the kernel is in the canonical order ----------------------------------

  /** Sub-block `sc` of activation block `j`, which is number `jc` of weight
      block `bw`. */
  datatype State = State(sc: nat, j: nat, jc: nat, bw: nat, iacc: IntTile, part: FloatTile, y: FloatTile)

  ghost predicate RowsOk(job: MultiJob, rows: seq<nat>) {
    |rows| == job.lanes && forall l | 0 <= l < |rows| :: rows[l] < job.w.rows
  }

  ghost predicate Context(job: MultiJob, rows: seq<nat>) {
    Compatible(job.w, job.a) && job.T0() + job.tokens <= job.a.n && RowsOk(job, rows)
  }

  ghost predicate InOrder(job: MultiJob, rows: seq<nat>, st: State)
    requires Context(job, rows)
  {
    st.jc < Apw(job.w, job.a) && st.bw <= Nb(job.w) && st.j == st.bw * Apw(job.w, job.a) + st.jc <= Nab(job.a) &&
    (st.bw == Nb(job.w) <==> st.j == Nab(job.a))
  }

  ghost predicate SumsHold(job: MultiJob, rows: seq<nat>, st: State)
    requires Context(job, rows)
  {
    InOrder(job, rows, st) && IsTile(st.part, job.tokens, job.lanes) && IsTile(st.y, job.tokens, job.lanes) &&
    (forall t, l | 0 <= t < job.tokens && 0 <= l < job.lanes ::
      st.y[t][l] == RowSum(job.w, job.a, rows[l], job.T0() + t, st.bw)) &&
    (st.bw < Nb(job.w) ==> forall t, l | 0 <= t < job.tokens && 0 <= l < job.lanes ::
      st.part[t][l] == Part(job.w, job.a, rows[l], job.T0() + t, st.bw, st.jc))
  }

  /** The accumulators of `acc` after `s` sub-blocks of activation block `j`. */
  ghost predicate AccHolds(job: MultiJob, rows: seq<nat>, acc: IntTile, j: nat, s: nat)
    requires Context(job, rows) && j < Nab(job.a) && s <= Spa(job.a)
  {
    IsTile(acc, job.tokens, job.lanes) &&
    forall t, l | 0 <= t < job.tokens && 0 <= l < job.lanes ::
      acc[t][l] == BlockAcc(job.w, job.a, rows[l], job.T0() + t, j, s)
  }

  ghost predicate Along(job: MultiJob, rows: seq<nat>, st: State, k: nat)
    requires Context(job, rows)
  {
    SumsHold(job, rows, st) && st.sc < Spa(job.a) && k == st.j * Spa(job.a) + st.sc &&
    (st.sc > 0 ==> st.j < Nab(job.a) && AccHolds(job, rows, st.iacc, st.j, st.sc))
  }

  // ----- pieces -------------------------------------------------------------------------

  /** Minus the block's sum, in every lane. */
  method StartBlock(job: MultiJob, rows: seq<nat>, j: nat) returns (acc: IntTile)
    requires Loadable(job) && Context(job, rows) && j < Nab(job.a)
    ensures AccHolds(job, rows, acc, j, 0)
  {
    hide NegSum, WeightOk, RowOk;
    acc := [];
    for t := 0 to job.tokens
      invariant |acc| == t && forall t' | 0 <= t' < t :: |acc[t']| == job.lanes
      invariant forall t', l | 0 <= t' < t && 0 <= l < job.lanes ::
        acc[t'][l] == BlockAcc(job.w, job.a, rows[l], job.T0() + t', j, 0)
    {
      assert TokenPacked(job.p, job.a, job.c, t);
      var start := job.p.ns[job.c, j, t];
      acc := acc + [seq(job.lanes, l => start)];
    }
  }

  ghost predicate TokensLoaded(job: MultiJob, k: nat, xs: seq<Sub>)
    requires ActsOk(job.a) && job.T0() + job.tokens <= job.a.n && k < Nsub(job.a)
  {
    |xs| == job.tokens && forall t | 0 <= t < job.tokens :: xs[t] == PermSub(job.a, job.T0() + t, k)
  }

  method TokensAt(job: MultiJob, k: nat) returns (xs: seq<Sub>)
    requires Loadable(job) && k < Nsub(job.a)
    ensures TokensLoaded(job, k, xs)
  {
    hide NegSum, WeightOk, RowOk, PermSub;
    xs := [];
    for t := 0 to job.tokens
      invariant |xs| == t && forall t' | 0 <= t' < t :: xs[t'] == PermSub(job.a, job.T0() + t', k)
    {
      assert TokenPacked(job.p, job.a, job.c, t);
      xs := xs + [job.p.x[job.c, k, t]];
    }
  }

  /** One sub-block further in block `j`. */
  lemma AccStep(job: MultiJob, rows: seq<nat>, instr: Instr, j: nat, s: nat, k: nat, xs: seq<Sub>, was: IntTile, now: IntTile)
    requires Context(job, rows) && j < Nab(job.a) && s < Spa(job.a) && k == j * Spa(job.a) + s && k < Nsub(job.a)
    requires TokensLoaded(job, k, xs)
    requires AccHolds(job, rows, was, j, s) && IsTile(now, job.tokens, job.lanes)
    requires forall t, l | 0 <= t < job.tokens && 0 <= l < job.lanes ::
      now[t][l] == Added(instr, was[t][l], LaneGroups(ExpandWords(WordsAt(job.w, rows, k)), job.lanes, l), xs[t])
    ensures AccHolds(job, rows, now, j, s + 1)
  {
    hide BlockAcc, Added, LaneGroups, ExpandWords, WordsAt, WeightOk, ActsOk, SubDot, Expanded, SignsOf, PermSub;
    forall t, l | 0 <= t < job.tokens && 0 <= l < job.lanes
      ensures now[t][l] == BlockAcc(job.w, job.a, rows[l], job.T0() + t, j, s + 1)
    {
      LaneStep(job, rows, instr, j, s, k, t, l, xs[t]);
    }
  }

  lemma LaneStep(job: MultiJob, rows: seq<nat>, instr: Instr, j: nat, s: nat, k: nat, t: nat, l: nat, x: Sub)
    requires Context(job, rows) && j < Nab(job.a) && s < Spa(job.a) && k == j * Spa(job.a) + s && k < Nsub(job.a)
    requires t < job.tokens && l < job.lanes && x == PermSub(job.a, job.T0() + t, k)
    ensures Added(instr, BlockAcc(job.w, job.a, rows[l], job.T0() + t, j, s),
                  LaneGroups(ExpandWords(WordsAt(job.w, rows, k)), job.lanes, l), x) ==
      BlockAcc(job.w, job.a, rows[l], job.T0() + t, j, s + 1)
  {
    hide BlockAcc, Added, LaneGroups, ExpandWords, WordsAt, SubDot, Expanded, SignsOf, RowOk, Sum, Roomy;
    SumsInside(job.a, job.T0() + t);
    FoldedIsExpanded(job.w, rows, k, l);
    AccRoomy(job.w, job.a, rows[l], job.T0() + t, j, s);
    BlockAccStep(job.w, job.a, rows[l], job.T0() + t, j, s);
    SubBlockAddsDot(instr, BlockAcc(job.w, job.a, rows[l], job.T0() + t, j, s),
                    LaneGroups(ExpandWords(WordsAt(job.w, rows, k)), job.lanes, l), job.w, job.a, rows[l],
                    job.T0() + t, k, x);
  }

  /** The end of activation block `j`: its dot product joins the partial sums,
      and at the end of a weight block these join the row sums. */
  method Finish(job: MultiJob, rows: seq<nat>, acc: IntTile, was: State) returns (st: State)
    requires Loadable(job) && Context(job, rows) && SumsHold(job, rows, was) && was.j < Nab(job.a)
    requires AccHolds(job, rows, acc, was.j, Spa(job.a))
    ensures SumsHold(job, rows, st) && st.j == was.j + 1 && st.sc == was.sc && st.iacc == was.iacc
  {
    hide WeightOk, ActsOk, AllPacked, Part, RowSum, BlockAcc;
    Geometry(job.w, job.a);
    var part := JoinPart(job, rows, acc, was);
    st := was.(part := part, j := was.j + 1, jc := was.jc + 1);
    if st.jc == Apw(job.w, job.a) {
      var y := JoinRows(job, rows, part, was);
      st := st.(jc := 0, bw := was.bw + 1, y := y, part := seq(job.tokens, t => seq(job.lanes, l => Zero)));
      assert (was.bw + 1) * Apw(job.w, job.a) == was.bw * Apw(job.w, job.a) + Apw(job.w, job.a);
      if st.bw < Nb(job.w) {
        NewPart(job, rows, st);
        Inside(st.bw, Nb(job.w), 0, Apw(job.w, job.a));
      }
    } else {
      Inside(was.bw, Nb(job.w), st.jc, Apw(job.w, job.a));
    }
  }

  lemma NewPart(job: MultiJob, rows: seq<nat>, st: State)
    requires Context(job, rows) && st.bw < Nb(job.w) && IsTile(st.part, job.tokens, job.lanes)
    requires forall t, l | 0 <= t < job.tokens && 0 <= l < job.lanes :: st.part[t][l] == Zero
    ensures forall t, l | 0 <= t < job.tokens && 0 <= l < job.lanes ::
      st.part[t][l] == Part(job.w, job.a, rows[l], job.T0() + t, st.bw, 0)
  {
  }

  method JoinPart(job: MultiJob, rows: seq<nat>, acc: IntTile, was: State) returns (part: FloatTile)
    requires Loadable(job) && Context(job, rows) && SumsHold(job, rows, was) && was.j < Nab(job.a)
    requires AccHolds(job, rows, acc, was.j, Spa(job.a)) && was.bw < Nb(job.w)
    ensures IsTile(part, job.tokens, job.lanes)
    ensures forall t, l | 0 <= t < job.tokens && 0 <= l < job.lanes ::
      part[t][l] == Part(job.w, job.a, rows[l], job.T0() + t, was.bw, was.jc + 1)
  {
    hide WeightOk, ActsOk, AllPacked, Part, RowSum, BlockAcc, IntDot;
    part := [];
    for t := 0 to job.tokens
      invariant |part| == t && forall t' | 0 <= t' < t :: |part[t']| == job.lanes
      invariant forall t', l | 0 <= t' < t && 0 <= l < job.lanes ::
        part[t'][l] == Part(job.w, job.a, rows[l], job.T0() + t', was.bw, was.jc + 1)
    {
      var row := Lanes(acc[t], job.p.dx[job.c, was.j, t], was.part[t]);
      forall l | 0 <= l < job.lanes
        ensures row[l] == Part(job.w, job.a, rows[l], job.T0() + t, was.bw, was.jc + 1)
      {
        ScaleAt(job, was.j, t);
        BlockDot(job.w, job.a, rows[l], job.T0() + t, was.j);
        PartStep(job.w, job.a, rows[l], job.T0() + t, was.bw, was.jc, was.j);
      }
      part := part + [row];
    }
  }

  lemma ScaleAt(job: MultiJob, j: nat, t: nat)
    requires Loadable(job) && j < Nab(job.a) && t < job.tokens
    ensures |job.a.d[job.T0() + t]| == Nab(job.a) && job.p.dx[job.c, j, t] == job.a.d[job.T0() + t][j]
  {
    hide RowOk, NegSum, PermSub, WeightOk;
    assert TokenPacked(job.p, job.a, job.c, t);
  }

  method JoinRows(job: MultiJob, rows: seq<nat>, part: FloatTile, was: State) returns (y: FloatTile)
    requires Context(job, rows) && SumsHold(job, rows, was) && was.bw < Nb(job.w) && IsTile(part, job.tokens, job.lanes)
    requires forall t, l | 0 <= t < job.tokens && 0 <= l < job.lanes ::
      part[t][l] == Part(job.w, job.a, rows[l], job.T0() + t, was.bw, Apw(job.w, job.a))
    ensures IsTile(y, job.tokens, job.lanes)
    ensures forall t, l | 0 <= t < job.tokens && 0 <= l < job.lanes ::
      y[t][l] == RowSum(job.w, job.a, rows[l], job.T0() + t, was.bw + 1)
  {
    hide ActsOk, Part, RowSum;
    var dw := seq(job.lanes, l requires 0 <= l < job.lanes => job.w.scale[rows[l]][was.bw]);
    y := [];
    for t := 0 to job.tokens
      invariant |y| == t && forall t' | 0 <= t' < t :: |y[t']| == job.lanes
      invariant forall t', l | 0 <= t' < t && 0 <= l < job.lanes ::
        y[t'][l] == RowSum(job.w, job.a, rows[l], job.T0() + t', was.bw + 1)
    {
      var row := ScaledLanes(part[t], dw, was.y[t]);
      forall l | 0 <= l < job.lanes ensures row[l] == RowSum(job.w, job.a, rows[l], job.T0() + t, was.bw + 1) {
        RowSumStep(job.w, job.a, rows[l], job.T0() + t, was.bw);
      }
      y := y + [row];
    }
  }

  /** One sub-block; the accumulators start and end with their block. */
  method OneSubBlock(job: MultiJob, rows: seq<nat>, k: nat, words: seq<bv32>, was: State) returns (st: State)
    requires Loadable(job) && Context(job, rows) && Along(job, rows, was, k) && k < Nsub(job.a)
    requires words == WordsAt(job.w, rows, k)
    ensures Along(job, rows, st, k + 1)
  {
    hide WeightOk, ActsOk, AllPacked, SumsHold, AccHolds, TokensLoaded, Added, WordsAt, ExpandWords;
    StillIn(job, rows, was, k);
    var acc := was.iacc;
    if was.sc == 0 {
      acc := StartBlock(job, rows, was.j);
    }
    var xs := TokensAt(job, k);
    TileOfAcc(job, rows, acc, was.j, was.sc);
    LoadedCount(job, k, xs);
    var now := SubBlock(job.instr, ExpandWords(words), xs, acc, job.lanes);
    AccStep(job, rows, job.instr, was.j, was.sc, k, xs, acc, now);
    st := was.(iacc := now, sc := was.sc + 1);
    if st.sc == Spa(job.a) {
      SumsOnly(job, rows, was, st);
      st := Finish(job, rows, now, st);
      st := st.(sc := 0);
      SumsOnly(job, rows, st.(sc := Spa(job.a)), st);
      assert (was.j + 1) * Spa(job.a) == was.j * Spa(job.a) + Spa(job.a);
    } else {
      SumsOnly(job, rows, was, st);
    }
  }

  lemma StillIn(job: MultiJob, rows: seq<nat>, st: State, k: nat)
    requires Context(job, rows) && Along(job, rows, st, k) && k < Nsub(job.a)
    ensures st.j < Nab(job.a) && Spa(job.a) > 0
  {
    hide WeightOk, AccHolds, RowOk;
    Geometry(job.w, job.a);
    MulLess(st.j, Nab(job.a), Spa(job.a));
  }

  lemma TileOfAcc(job: MultiJob, rows: seq<nat>, acc: IntTile, j: nat, s: nat)
    requires Context(job, rows) && j < Nab(job.a) && s <= Spa(job.a) && AccHolds(job, rows, acc, j, s)
    ensures IsTile(acc, job.tokens, job.lanes)
  {
  }

  lemma LoadedCount(job: MultiJob, k: nat, xs: seq<Sub>)
    requires ActsOk(job.a) && job.T0() + job.tokens <= job.a.n && k < Nsub(job.a) && TokensLoaded(job, k, xs)
    ensures |xs| == job.tokens
  {
  }

  /** The sums do not depend on the sub-block within a block. */
  lemma SumsOnly(job: MultiJob, rows: seq<nat>, a: State, b: State)
    requires Context(job, rows) && SumsHold(job, rows, a)
    requires a.j == b.j && a.jc == b.jc && a.bw == b.bw && a.part == b.part && a.y == b.y
    ensures SumsHold(job, rows, b)
  {
  }

  /** Two sub-blocks at once: two independent accumulator chains. */
  method SubBlockPair(ws0: GroupTile, ws1: GroupTile, xs0: seq<Sub>, xs1: seq<Sub>, a0: IntTile, a1: IntTile, lanes: nat)
    returns (r0: IntTile, r1: IntTile)
    requires IsTile(ws0, 8, lanes) && IsTile(ws1, 8, lanes) && |xs0| == |xs1|
    requires IsTile(a0, |xs0|, lanes) && IsTile(a1, |xs0|, lanes)
    ensures IsTile(r0, |xs0|, lanes) && IsTile(r1, |xs0|, lanes)
    ensures forall i, l | 0 <= i < |xs0| && 0 <= l < lanes ::
      r0[i][l] == Added(FourProducts, a0[i][l], LaneGroups(ws0, lanes, l), xs0[i])
    ensures forall i, l | 0 <= i < |xs0| && 0 <= l < lanes ::
      r1[i][l] == Added(FourProducts, a1[i][l], LaneGroups(ws1, lanes, l), xs1[i])
  {
    hide Dpbusd;
    r0, r1 := a0, a1;
    for g := 0 to 8
      invariant IsTile(r0, |xs0|, lanes) && IsTile(r1, |xs0|, lanes)
      invariant forall i, l | 0 <= i < |xs0| && 0 <= l < lanes ::
        r0[i][l] == Accumulated(a0[i][l], LaneGroups(ws0, lanes, l), xs0[i], g)
      invariant forall i, l | 0 <= i < |xs0| && 0 <= l < lanes ::
        r1[i][l] == Accumulated(a1[i][l], LaneGroups(ws1, lanes, l), xs1[i], g)
    {
      for i := 0 to |xs0|
        invariant IsTile(r0, |xs0|, lanes) && IsTile(r1, |xs0|, lanes)
        invariant forall i', l | 0 <= i' < |xs0| && 0 <= l < lanes ::
          r0[i'][l] == Accumulated(a0[i'][l], LaneGroups(ws0, lanes, l), xs0[i'], if i' < i then g + 1 else g)
        invariant forall i', l | 0 <= i' < |xs0| && 0 <= l < lanes ::
          r1[i'][l] == Accumulated(a1[i'][l], LaneGroups(ws1, lanes, l), xs1[i'], if i' < i then g + 1 else g)
      {
        r0 := r0[i := DpbusdLanes(ws0[g], g, r0[i], xs0[i])];
        r1 := r1[i := DpbusdLanes(ws1[g], g, r1[i], xs1[i])];
      }
    }
  }

  method TwoSubBlocks(job: MultiJob, rows: seq<nat>, k: nat, words0: seq<bv32>, words1: seq<bv32>, was: State)
    returns (st: State)
    requires Loadable(job) && Context(job, rows) && Along(job, rows, was, k) && k + 1 < Nsub(job.a)
    requires Spa(job.a) == 1 && job.instr == FourProducts
    requires words0 == WordsAt(job.w, rows, k) && words1 == WordsAt(job.w, rows, k + 1)
    ensures Along(job, rows, st, k + 2)
  {
    hide WeightOk, ActsOk, AllPacked, SumsHold, AccHolds, TokensLoaded, Added, WordsAt, ExpandWords;
    StillIn(job, rows, was, k);
    OneEach(job);
    var a0 := StartBlock(job, rows, was.j);
    var a1 := StartBlock(job, rows, was.j + 1);
    var xs0 := TokensAt(job, k);
    var xs1 := TokensAt(job, k + 1);
    TileOfAcc(job, rows, a0, was.j, 0);
    TileOfAcc(job, rows, a1, was.j + 1, 0);
    LoadedCount(job, k, xs0);
    LoadedCount(job, k + 1, xs1);
    var r0, r1 := SubBlockPair(ExpandWords(words0), ExpandWords(words1), xs0, xs1, a0, a1, job.lanes);
    AccStep(job, rows, FourProducts, was.j, 0, k, xs0, a0, r0);
    AccStep(job, rows, FourProducts, was.j + 1, 0, k + 1, xs1, a1, r1);
    st := Finish(job, rows, r0, was);
    st := Finish(job, rows, r1, st);
  }

  lemma OneEach(job: MultiJob)
    requires Compatible(job.w, job.a) && Spa(job.a) == 1
    ensures Nsub(job.a) == Nab(job.a)
  {
    hide WeightOk, RowOk;
    Geometry(job.w, job.a);
  }

  /** The start of a vector of rows. */
  method FirstState(job: MultiJob, rows: seq<nat>) returns (st: State)
    requires Context(job, rows)
    ensures Along(job, rows, st, 0)
  {
    hide RowOk;
    Geometry(job.w, job.a);
    var zero := seq(job.tokens, t => seq(job.lanes, l => Zero));
    st := State(0, 0, 0, 0, [], zero, zero);
    NewPart(job, rows, st);
    NoRowSums(job, rows, st);
  }

  lemma NoRowSums(job: MultiJob, rows: seq<nat>, st: State)
    requires Context(job, rows) && IsTile(st.y, job.tokens, job.lanes)
    requires forall t, l | 0 <= t < job.tokens && 0 <= l < job.lanes :: st.y[t][l] == Zero
    ensures forall t, l | 0 <= t < job.tokens && 0 <= l < job.lanes ::
      st.y[t][l] == RowSum(job.w, job.a, rows[l], job.T0() + t, 0)
  {
  }

  /** All columns of a vector of rows, in chunks of as many sub-blocks as
      there are lanes. */
  method RowsKernel(job: MultiJob, rows: seq<nat>) returns (y: FloatTile)
    requires Loadable(job) && Context(job, rows)
    ensures IsTile(y, job.tokens, job.lanes)
    ensures forall t, l | 0 <= t < job.tokens && 0 <= l < job.lanes :: y[t][l] == Dot(job.w, job.a, rows[l], job.T0() + t)
  {
    hide WeightOk, ActsOk, AllPacked, Along, RowSum, WordsAt;
    var nsub := Nsub(job.a);
    var st := FirstState(job, rows);
    var kc := 0;
    while kc < nsub
      invariant kc <= nsub && Along(job, rows, st, kc)
      decreases nsub - kc
    {
      var cnt := Min(nsub - kc, job.lanes);
      var s := 0;
      while s < cnt
        invariant s <= cnt && Along(job, rows, st, kc + s)
        decreases cnt - s
      {
        if job.instr == FourProducts && Spa(job.a) == 1 && s + 1 < cnt {
          st := TwoSubBlocks(job, rows, kc + s, WordsAt(job.w, rows, kc + s), WordsAt(job.w, rows, kc + s + 1), st);
          s := s + 2;
        } else {
          st := OneSubBlock(job, rows, kc + s, WordsAt(job.w, rows, kc + s), st);
          s := s + 1;
        }
      }
      kc := kc + cnt;
    }
    y := st.y;
    AtTheEnd(job, rows, st);
  }

  lemma AtTheEnd(job: MultiJob, rows: seq<nat>, st: State)
    requires Context(job, rows) && Along(job, rows, st, Nsub(job.a))
    ensures IsTile(st.y, job.tokens, job.lanes)
    ensures forall t, l | 0 <= t < job.tokens && 0 <= l < job.lanes ::
      st.y[t][l] == Dot(job.w, job.a, rows[l], job.T0() + t)
  {
    hide RowOk, RowSum, AccHolds;
    Geometry(job.w, job.a);
    assert (st.j + 1) * Spa(job.a) == st.j * Spa(job.a) + Spa(job.a);
    MulLess(Nab(job.a), st.j + 1, Spa(job.a));
  }

  // ----- stores ------------------------------------------------------------------------

  /** Rows `r` to `r + cnt` of token `t`. */
  method StoreRows(w: Weight, a: Acts, t: nat, r: nat, v: seq<Float>, cnt: nat, out: array<Float>)
    requires Compatible(w, a) && t < a.n && r + cnt <= w.rows && cnt <= |v| && OutShape(w, a, out)
    modifies out
    ensures forall t', r' | 0 <= t' < a.n && 0 <= r' < w.rows ::
      out[Flat(t', r', w.rows)] ==
      if t' == t && r <= r' < r + cnt then v[r' - r] else old(out[Flat(t', r', w.rows)])
  {
    hide Flat, Compatible;
    for l := 0 to cnt
      invariant forall t', r' | 0 <= t' < a.n && 0 <= r' < w.rows ::
        out[Flat(t', r', w.rows)] ==
        if t' == t && r <= r' < r + l then v[r' - r] else old(out[Flat(t', r', w.rows)])
    {
      forall t', r' | 0 <= t' < a.n && 0 <= r' < w.rows && Flat(t', r', w.rows) == Flat(t, r + l, w.rows)
        ensures t' == t && r' == r + l
      {
        FlatInjective(t', r', t, r + l, w.rows);
      }
      out[Flat(t, r + l, w.rows)] := v[l];
    }
  }

  /** The outputs of one call. */
  predicate JobOwns(job: MultiJob, r0: nat, nr: nat, t: nat, r: nat) {
    job.T0() <= t < job.T0() + job.tokens && r0 <= r < r0 + nr
  }

  /** Rows `r0` to `r0 + nr` against the tokens of the job: exactly that part
      of the output is written, with the reference result. Lanes past the last
      row repeat it and are not stored. */
  method MultiKernel(job: MultiJob, r0: nat, nr: nat, out: array<Float>)
    requires Loadable(job) && r0 + nr <= job.w.rows && OutShape(job.w, job.a, out)
    modifies out
    ensures forall t, r | 0 <= t < job.a.n && 0 <= r < job.w.rows ::
      if JobOwns(job, r0, nr, t, r) then Correct(job.w, job.a, out, t, r)
      else out[Flat(t, r, job.w.rows)] == old(out[Flat(t, r, job.w.rows)])
  {
    hide WeightOk, ActsOk, AllPacked, Dot, Flat;
    var i := 0;
    while i < nr
      invariant i <= nr
      invariant forall t, r | 0 <= t < job.a.n && 0 <= r < job.w.rows ::
        if JobOwns(job, r0, i, t, r) then Correct(job.w, job.a, out, t, r)
        else out[Flat(t, r, job.w.rows)] == old(out[Flat(t, r, job.w.rows)])
      decreases nr - i
    {
      var rr := Min(nr - i, job.lanes);
      var rows := seq(job.lanes, k requires 0 <= k < job.lanes => r0 + i + Min(k, rr - 1));
      var y := RowsKernel(job, rows);
      forall t, l | 0 <= t < job.tokens && 0 <= l < rr ensures y[t][l] == Dot(job.w, job.a, r0 + i + l, job.T0() + t) {
        assert rows[l] == r0 + i + l;
      }
      StoreTokens(job, r0 + i, rr, y, out);
      i := i + rr;
    }
  }

  method StoreTokens(job: MultiJob, r: nat, rr: nat, y: FloatTile, out: array<Float>)
    requires Compatible(job.w, job.a) && job.T0() + job.tokens <= job.a.n && OutShape(job.w, job.a, out)
    requires r + rr <= job.w.rows && rr <= job.lanes && IsTile(y, job.tokens, job.lanes)
    requires forall t, l | 0 <= t < job.tokens && 0 <= l < rr :: y[t][l] == Dot(job.w, job.a, r + l, job.T0() + t)
    modifies out
    ensures forall t', r' | 0 <= t' < job.a.n && 0 <= r' < job.w.rows ::
      if JobOwns(job, r, rr, t', r') then Correct(job.w, job.a, out, t', r')
      else out[Flat(t', r', job.w.rows)] == old(out[Flat(t', r', job.w.rows)])
  {
    hide WeightOk, ActsOk, Dot, Flat;
    for t := 0 to job.tokens
      invariant forall t', r' | 0 <= t' < job.a.n && 0 <= r' < job.w.rows ::
        if job.T0() <= t' < job.T0() + t && r <= r' < r + rr then Correct(job.w, job.a, out, t', r')
        else out[Flat(t', r', job.w.rows)] == old(out[Flat(t', r', job.w.rows)])
    {
      StoreRows(job.w, job.a, job.T0() + t, r, y[t], rr, out);
    }
  }

  /** All row chunks against all groups of up to eight tokens. */
  method GemmMulti(w: Weight, a: Acts, p: Packed, instr: Instr, lanes: nat, chunk: nat, out: array<Float>)
    requires Compatible(w, a) && PackedShape(p, a) && p.tile == MULTI_MAX_TOKENS && lanes > 0 && chunk > 0
    requires p.x.Length0 == CeilDiv(a.n, MULTI_MAX_TOKENS) && out.Length == a.n * w.rows && Outside(p, out)
    modifies out, p.x, p.ns, p.dx
    ensures OutShape(w, a, out) && forall t, r | 0 <= t < a.n && 0 <= r < w.rows :: Correct(w, a, out, t, r)
  {
    hide WeightOk, ActsOk, AllPacked, Dot, Flat, CeilDiv;
    AllInside(w, a, out);
    FillPacked(p, a);
    var r0 := 0;
    while r0 < w.rows
      invariant r0 <= w.rows && AllPacked(p, a)
      invariant forall t, r | 0 <= t < a.n && 0 <= r < r0 :: Correct(w, a, out, t, r)
      decreases w.rows - r0
    {
      var nr := Min(chunk, w.rows - r0);
      RowChunk(w, a, p, instr, lanes, r0, nr, out);
      r0 := r0 + nr;
    }
  }

  ghost predicate Outside(p: Packed, out: array<Float>) {
    (out as object) !in Objects(p)
  }

  method RowChunk(w: Weight, a: Acts, p: Packed, instr: Instr, lanes: nat, r0: nat, nr: nat, out: array<Float>)
    requires Compatible(w, a) && PackedShape(p, a) && AllPacked(p, a) && p.tile == MULTI_MAX_TOKENS && lanes > 0
    requires p.x.Length0 == CeilDiv(a.n, MULTI_MAX_TOKENS) && Outside(p, out) && OutShape(w, a, out)
    requires r0 + nr <= w.rows
    modifies out
    ensures AllPacked(p, a)
    ensures forall t, r | 0 <= t < a.n && 0 <= r < w.rows ::
      if r0 <= r < r0 + nr then Correct(w, a, out, t, r) else out[Flat(t, r, w.rows)] == old(out[Flat(t, r, w.rows)])
  {
    hide WeightOk, ActsOk, AllPacked, Dot, Flat, CeilDiv;
    var c := 0;
    while c * MULTI_MAX_TOKENS < a.n
      invariant AllPacked(p, a)
      invariant forall t, r | 0 <= t < a.n && 0 <= r < w.rows ::
        if t < c * MULTI_MAX_TOKENS && r0 <= r < r0 + nr then Correct(w, a, out, t, r)
        else out[Flat(t, r, w.rows)] == old(out[Flat(t, r, w.rows)])
      decreases a.n - c * MULTI_MAX_TOKENS
    {
      var tc := Min(a.n - c * MULTI_MAX_TOKENS, MULTI_MAX_TOKENS);
      TileThere(a.n, c);
      MultiKernel(MultiJob(w, a, p, instr, lanes, c, tc), r0, nr, out);
      c := c + 1;
    }
  }

  lemma TileThere(n: nat, c: nat)
    requires c * MULTI_MAX_TOKENS < n
    ensures c < CeilDiv(n, MULTI_MAX_TOKENS)
  {
    CeilDivMeans(n, MULTI_MAX_TOKENS);
    MulLess(c, CeilDiv(n, MULTI_MAX_TOKENS), MULTI_MAX_TOKENS);
  }
}
