/** The tiled GEMM: its work split, the chunked kernel run and the stores. */
module Q1Gemm {
  import opened Wrappers
  import opened Q1Bits
  import opened Q1Reference
  import opened Q1Buffers
  import opened Q1Lanes
  import opened Q1Tile

  // ----- the work split ----------------------------------------------------------

  function CeilDiv(a: nat, b: nat): nat
    requires b > 0
  {
    (a + b - 1) / b
  }

  lemma CeilDivMeans(a: nat, b: nat)
    requires b > 0
    ensures CeilDiv(a, b) * b >= a && (a > 0 ==> CeilDiv(a, b) > 0 && (CeilDiv(a, b) - 1) * b < a)
  {
    var q := CeilDiv(a, b);
    assert a + b - 1 == q * b + (a + b - 1) % b;
    assert (q - 1) * b == q * b - b;
  }

  const GEMM_TOKEN_BLOCK: nat := 256

  /** Token tiles in blocks of `tpb`, slabs in groups of `spi`. */
  datatype Split = Split(ntiles: nat, tpb: nat, ntb: nat, nslab: nat, spi: nat, perTb: nat)

  function Clamp(x: nat, lo: nat, hi: nat): nat {
    if x < lo then lo else Min(x, hi)
  }

  function SplitOf(n: nat, rows: nat, tile: nat, srows: nat, threads: nat): Split
    requires n > 0 && rows > 0 && tile > 0 && srows > 0
  {
    CeilDivMeans(n, tile);
    CeilDivMeans(rows, srows);
    CeilDivMeans(n, GEMM_TOKEN_BLOCK);
    var nslab := CeilDiv(rows, srows);
    var ntiles := CeilDiv(n, tile);
    var tpb := CeilDiv(ntiles, CeilDiv(n, GEMM_TOKEN_BLOCK));
    CeilDivMeans(ntiles, CeilDiv(n, GEMM_TOKEN_BLOCK));
    var ntb := CeilDiv(ntiles, tpb);
    CeilDivMeans(ntiles, tpb);
    var perTb := Clamp(CeilDiv(16 * threads, ntb), 1, nslab);
    var spi := CeilDiv(nslab, perTb);
    CeilDivMeans(nslab, perTb);
    Split(ntiles, tpb, ntb, nslab, spi, CeilDiv(nslab, spi))
  }

  ghost predicate SplitOk(sp: Split) {
    sp.ntiles > 0 && sp.tpb > 0 && sp.nslab > 0 && sp.spi > 0 && sp.ntb > 0 && sp.perTb > 0 &&
    sp.ntb == CeilDiv(sp.ntiles, sp.tpb) && sp.perTb == CeilDiv(sp.nslab, sp.spi)
  }

  lemma SplitIsOk(n: nat, rows: nat, tile: nat, srows: nat, threads: nat)
    requires n > 0 && rows > 0 && tile > 0 && srows > 0
    ensures SplitOk(SplitOf(n, rows, tile, srows, threads)) && SplitOf(n, rows, tile, srows, threads).perTb > 0
    ensures SplitOf(n, rows, tile, srows, threads).ntiles == CeilDiv(n, tile)
    ensures SplitOf(n, rows, tile, srows, threads).nslab == CeilDiv(rows, srows)
  {
    hide CeilDiv;
    CeilDivMeans(n, tile);
    CeilDivMeans(rows, srows);
    CeilDivMeans(n, GEMM_TOKEN_BLOCK);
    var nslab, ntiles := CeilDiv(rows, srows), CeilDiv(n, tile);
    var tpb := CeilDiv(ntiles, CeilDiv(n, GEMM_TOKEN_BLOCK));
    CeilDivMeans(ntiles, CeilDiv(n, GEMM_TOKEN_BLOCK));
    CeilDivMeans(ntiles, tpb);
    var perTb := Clamp(CeilDiv(16 * threads, CeilDiv(ntiles, tpb)), 1, nslab);
    CeilDivMeans(nslab, perTb);
    CeilDivMeans(nslab, CeilDiv(nslab, perTb));
  }

  function Items(sp: Split): nat {
    sp.ntb * sp.perTb
  }

  /** Token tiles `c0` to `c1` and slabs `s0` to `s1` of an item. */
  datatype Share = Share(c0: nat, c1: nat, s0: nat, s1: nat)

  function ShareOf(sp: Split, item: nat): Share
    requires sp.perTb > 0
  {
    var (tbi, si) := (item / sp.perTb, item % sp.perTb);
    Share(tbi * sp.tpb, Min((tbi + 1) * sp.tpb, sp.ntiles), si * sp.spi, Min((si + 1) * sp.spi, sp.nslab))
  }

  predicate Owns(s: Share, c: nat, sl: nat) {
    s.c0 <= c < s.c1 && s.s0 <= sl < s.s1
  }

  function Owner(sp: Split, c: nat, sl: nat): nat
    requires sp.tpb > 0 && sp.spi > 0
  {
    (c / sp.tpb) * sp.perTb + sl / sp.spi
  }

  /** `x` is in part `q` of size `size` exactly if `q` is `x / size`. */
  lemma InPart(x: nat, size: nat, q: nat)
    requires size > 0
    ensures q * size <= x < (q + 1) * size <==> q == x / size
  {
    assert x == (x / size) * size + x % size;
    if q < x / size {
      assert (q + 1) * size <= (x / size) * size;
    } else if q > x / size {
      assert (x / size + 1) * size <= q * size;
    }
  }

  lemma MulLess(p: nat, q: nat, size: nat)
    requires p * size < q * size
    ensures p < q
  {
    assert p >= q ==> p * size >= q * size;
  }

  lemma PartExists(x: nat, n: nat, size: nat)
    requires size > 0 && x < n
    ensures x / size < CeilDiv(n, size)
  {
    CeilDivMeans(n, size);
    InPart(x, size, x / size);
    MulLess(x / size, CeilDiv(n, size), size);
  }

  lemma ItemParts(tbi: nat, si: nat, perTb: nat)
    requires perTb > 0 && si < perTb
    ensures (tbi * perTb + si) / perTb == tbi && (tbi * perTb + si) % perTb == si
  {
    InPart(tbi * perTb + si, perTb, tbi);
    assert (tbi + 1) * perTb == tbi * perTb + perTb;
  }

  /** Every pair of token tile and slab belongs to exactly one item. */
  lemma SplitIsExact(sp: Split, c: nat, sl: nat, item: nat)
    requires SplitOk(sp) && c < sp.ntiles && sl < sp.nslab && item < Items(sp)
    ensures Owner(sp, c, sl) < Items(sp)
    ensures Owns(ShareOf(sp, item), c, sl) <==> item == Owner(sp, c, sl)
  {
    hide CeilDiv;
    var (tbi, si) := (item / sp.perTb, item % sp.perTb);
    assert item == tbi * sp.perTb + si;
    InPart(c, sp.tpb, tbi);
    InPart(sl, sp.spi, si);
    PartExists(c, sp.ntiles, sp.tpb);
    PartExists(sl, sp.nslab, sp.spi);
    Inside(c / sp.tpb, sp.ntb, sl / sp.spi, sp.perTb);
    ItemParts(c / sp.tpb, sl / sp.spi, sp.perTb);
  }

  /** No item is empty. */
  lemma NoEmptyItem(sp: Split, item: nat)
    requires SplitOk(sp) && item < Items(sp)
    ensures var s := ShareOf(sp, item); s.c0 < s.c1 <= sp.ntiles && s.s0 < s.s1 <= sp.nslab
  {
    hide CeilDiv;
    var (tbi, si) := (item / sp.perTb, item % sp.perTb);
    assert item == tbi * sp.perTb + si;
    MulLess(tbi, sp.ntb, sp.perTb);
    FirstOfPart(sp.ntiles, sp.tpb, tbi);
    FirstOfPart(sp.nslab, sp.spi, si);
  }

  lemma FirstOfPart(n: nat, size: nat, q: nat)
    requires size > 0 && n > 0 && q < CeilDiv(n, size)
    ensures q * size < n && q * size < (q + 1) * size
  {
    CeilDivMeans(n, size);
    assert q * size <= (CeilDiv(n, size) - 1) * size;
    assert (q + 1) * size == q * size + size;
  }

  // ----- the output ----------------------------------------------------------------

  function Flat(t: nat, r: nat, rows: nat): nat {
    t * rows + r
  }

  lemma FlatInside(t: nat, r: nat, n: nat, rows: nat)
    requires t < n && r < rows
    ensures Flat(t, r, rows) < n * rows
  {
    Inside(t, n, r, rows);
  }

  lemma FlatInjective(t: nat, r: nat, t': nat, r': nat, rows: nat)
    requires r < rows && r' < rows && Flat(t, r, rows) == Flat(t', r', rows)
    ensures t == t' && r == r'
  {
    ItemParts(t, r, rows);
    ItemParts(t', r', rows);
  }

  /** Store one token's lanes, clipped to the rows; padding tokens are dropped. */
  method StoreToken(job: Job, t: nat, v: seq<Float>, out: array<Float>)
    requires |v| == job.s.lanes && job.r0 < job.w.rows && out.Length == job.a.n * job.w.rows
    modifies out
    ensures forall t', r' | 0 <= t' < job.a.n && 0 <= r' < job.w.rows :: Flat(t', r', job.w.rows) < out.Length
    ensures forall t', r' | 0 <= t' < job.a.n && 0 <= r' < job.w.rows ::
      out[Flat(t', r', job.w.rows)] ==
      if t' == t && job.r0 <= r' < job.r0 + job.s.lanes then v[r' - job.r0] else old(out[Flat(t', r', job.w.rows)])
  {
    hide Flat;
    var rows := job.w.rows;
    forall t', r' | 0 <= t' < job.a.n && 0 <= r' < rows ensures Flat(t', r', rows) < out.Length {
      FlatInside(t', r', job.a.n, rows);
    }
    if t >= job.a.n {
      return;
    }
    var cnt := Min(job.s.lanes, rows - job.r0);
    for l := 0 to cnt
      invariant forall t', r' | 0 <= t' < job.a.n && 0 <= r' < rows ::
        out[Flat(t', r', rows)] ==
        if t' == t && job.r0 <= r' < job.r0 + l then v[r' - job.r0] else old(out[Flat(t', r', rows)])
    {
      forall t', r' | 0 <= t' < job.a.n && 0 <= r' < rows && Flat(t', r', rows) == Flat(t, job.r0 + l, rows)
        ensures t' == t && r' == job.r0 + l
      {
        FlatInjective(t', r', t, job.r0 + l, rows);
      }
      out[Flat(t, job.r0 + l, rows)] := v[l];
    }
  }

  // ----- one job -----------------------------------------------------------------------

  ghost predicate OutShape(w: Weight, a: Acts, out: array<Float>) {
    out.Length == a.n * w.rows &&
    forall t, r | 0 <= t < a.n && 0 <= r < w.rows :: Flat(t, r, w.rows) < out.Length
  }

  ghost predicate Correct(w: Weight, a: Acts, out: array<Float>, t: nat, r: nat)
    requires OutShape(w, a, out) && InRange(w, a, r, t)
    reads out
  {
    out[Flat(t, r, w.rows)] == Dot(w, a, r, t)
  }

  predicate InLanes(job: Job, r: nat) {
    job.r0 <= r < job.r0 + job.s.lanes
  }

  /** Store a finished tile. */
  method StoreTile(job: Job, c: nat, y: FloatTile, out: array<Float>)
    requires Shaped(job) && HasSums(job, c, Nb(job.w), y) && job.r0 < job.w.rows && OutShape(job.w, job.a, out)
    modifies out
    ensures forall t, r | 0 <= t < job.a.n && 0 <= r < job.w.rows ::
      if c * job.p.tile <= t < c * job.p.tile + job.p.tile && InLanes(job, r) then Correct(job.w, job.a, out, t, r)
      else out[Flat(t, r, job.w.rows)] == old(out[Flat(t, r, job.w.rows)])
  {
    hide Flat, RowSum, Compatible;
    var t0 := c * job.p.tile;
    for i := 0 to job.p.tile
      invariant forall t, r | 0 <= t < job.a.n && 0 <= r < job.w.rows ::
        if t0 <= t < t0 + i && InLanes(job, r) then Correct(job.w, job.a, out, t, r)
        else out[Flat(t, r, job.w.rows)] == old(out[Flat(t, r, job.w.rows)])
    {
      StoreToken(job, t0 + i, y[i], out);
    }
  }

  lemma NoSums(job: Job, c: nat, y: FloatTile)
    requires Shaped(job) && IsTile(y, job.p.tile, job.s.lanes)
    requires forall i, l | 0 <= i < job.p.tile && 0 <= l < job.s.lanes :: y[i][l] == Zero
    ensures HasSums(job, c, 0, y)
  {
    hide Compatible, Part;
  }

  /** The sums of every tile of a job. */
  ghost predicate AllSums(job: Job, c0: nat, b: nat, ybuf: seq<FloatTile>) {
    forall n | 0 <= n < |ybuf| :: HasSums(job, c0 + n, b, ybuf[n])
  }

  /** One pass of every tile over columns `b0` to `b1`; the sums wait for the
      next chunk. */
  method RunChunk(job: Job, instr: Instr, c0: nat, b0: nat, b1: nat, was: seq<FloatTile>) returns (ybuf: seq<FloatTile>)
    requires Ready(job) && c0 + |was| <= job.p.x.Length0 && b0 <= b1 <= Nb(job.w) && AllSums(job, c0, b0, was)
    ensures |ybuf| == |was| && AllSums(job, c0, b1, ybuf)
  {
    hide AllPacked, SlabFilled, ActsOk, WeightOk, HasSums;
    ybuf := [];
    for n := 0 to |was|
      invariant |ybuf| == n && AllSums(job, c0, b1, ybuf)
    {
      var y := AddWeightBlocks(job, instr, c0 + n, b0, b1, was[n]);
      ybuf := ybuf + [y];
    }
  }

  predicate InTiles(job: Job, c0: nat, c1: nat, t: nat) {
    c0 * job.p.tile <= t < c1 * job.p.tile
  }

  /** The last chunk: every tile is stored once its sums are complete. */
  method RunLastChunk(job: Job, instr: Instr, c0: nat, b0: nat, was: seq<FloatTile>, out: array<Float>)
    requires Ready(job) && c0 + |was| <= job.p.x.Length0 && b0 <= Nb(job.w) && AllSums(job, c0, b0, was)
    requires job.r0 < job.w.rows && OutShape(job.w, job.a, out)
    modifies out
    ensures forall t, r | 0 <= t < job.a.n && 0 <= r < job.w.rows ::
      if InTiles(job, c0, c0 + |was|, t) && InLanes(job, r) then Correct(job.w, job.a, out, t, r)
      else out[Flat(t, r, job.w.rows)] == old(out[Flat(t, r, job.w.rows)])
  {
    hide AllPacked, SlabFilled, ActsOk, WeightOk, HasSums, Flat;
    for n := 0 to |was|
      invariant forall t, r | 0 <= t < job.a.n && 0 <= r < job.w.rows ::
        if InTiles(job, c0, c0 + n, t) && InLanes(job, r) then Correct(job.w, job.a, out, t, r)
        else out[Flat(t, r, job.w.rows)] == old(out[Flat(t, r, job.w.rows)])
    {
      var y := AddWeightBlocks(job, instr, c0 + n, b0, Nb(job.w), was[n]);
      assert (c0 + n + 1) * job.p.tile == (c0 + n) * job.p.tile + job.p.tile;
      TilesOrdered(c0, c0 + n, job.p.tile);
      StoreTile(job, c0 + n, y, out);
    }
  }

  /** A slab of rows against tiles `c0` to `c1`, `kb` weight blocks at a time:
      exactly that part of the output is written, with the reference result. */
  method RunJob(job: Job, instr: Instr, kb: nat, c0: nat, c1: nat, out: array<Float>)
    requires Ready(job) && c0 < c1 <= job.p.x.Length0 && kb > 0 && job.r0 < job.w.rows
    requires OutShape(job.w, job.a, out)
    modifies out
    ensures forall t, r | 0 <= t < job.a.n && 0 <= r < job.w.rows ::
      if InTiles(job, c0, c1, t) && InLanes(job, r) then Correct(job.w, job.a, out, t, r)
      else out[Flat(t, r, job.w.rows)] == old(out[Flat(t, r, job.w.rows)])
  {
    hide AllPacked, SlabFilled, ActsOk, WeightOk, HasSums, Flat;
    var zero := seq(job.p.tile, i => seq(job.s.lanes, l => Zero));
    var ybuf := seq(c1 - c0, n => zero);
    forall n | 0 <= n < |ybuf| ensures HasSums(job, c0 + n, 0, ybuf[n]) {
      NoSums(job, c0 + n, zero);
    }
    var b0 := 0;
    while b0 + kb < Nb(job.w)
      invariant b0 <= Nb(job.w) && |ybuf| == c1 - c0 && AllSums(job, c0, b0, ybuf)
      decreases Nb(job.w) - b0
      modifies {}
    {
      ybuf := RunChunk(job, instr, c0, b0, b0 + kb, ybuf);
      b0 := b0 + kb;
    }
    RunLastChunk(job, instr, c0, b0, ybuf, out);
  }

  lemma TilesOrdered(c0: nat, c: nat, tile: nat)
    requires c0 <= c
    ensures c0 * tile <= c * tile
  {
  }

  ghost function Objects(p: Packed): set<object> {
    {p.x as object, p.ns as object, p.dx as object}
  }

  /** The packed activations are not written by the tasks. */
  ghost predicate Separate(p: Packed, s: Slab, out: array<Float>) {
    Objects(p) !! {s.wexp as object, s.dw as object, out as object} && (s.wexp as object) != (out as object) &&
    (s.dw as object) != (out as object)
  }

  // ----- the whole product ---------------------------------------------------------------

  /** Token `t` and row `r` belong to this item. */
  predicate Mine(sp: Split, item: nat, tile: nat, srows: nat, t: nat, r: nat)
    requires tile > 0 && srows > 0 && sp.perTb > 0
  {
    Owns(ShareOf(sp, item), t / tile, r / srows)
  }

  /** One item: its slabs in turn, each against all of its tiles. */
  method RunItem(w: Weight, a: Acts, p: Packed, s: Slab, instr: Instr, kb: nat, sp: Split, item: nat, out: array<Float>)
    requires Compatible(w, a) && PackedShape(p, a) && AllPacked(p, a) && SlabShape(s, w) && kb > 0 && s.lanes > 0
    requires SplitOk(sp) && sp.ntiles == p.x.Length0 && sp.nslab == CeilDiv(w.rows, s.lanes) && item < Items(sp)
    requires OutShape(w, a, out) && Separate(p, s, out)
    modifies out, s.wexp, s.dw
    ensures AllPacked(p, a)
    ensures forall t, r | 0 <= t < a.n && 0 <= r < w.rows ::
      if Mine(sp, item, p.tile, s.lanes, t, r) then Correct(w, a, out, t, r)
      else out[Flat(t, r, w.rows)] == old(out[Flat(t, r, w.rows)])
  {
    hide AllPacked, SlabFilled, ActsOk, WeightOk, SplitOk, Flat, Dot, CeilDiv, ShareOf, Mine, SharedBefore, SlabOwns;
    var share := ShareOf(sp, item);
    NoEmptyItem(sp, item);
    forall t, r | 0 <= t < a.n && 0 <= r < w.rows
      ensures !SharedBefore(share, share.s0, p.tile, s.lanes, t, r)
      ensures Mine(sp, item, p.tile, s.lanes, t, r) <==> SharedBefore(share, share.s1, p.tile, s.lanes, t, r)
    {
      ShareEnds(sp, item, p.tile, s.lanes, t, r);
    }
    for sl := share.s0 to share.s1
      invariant AllPacked(p, a)
      invariant forall t, r | 0 <= t < a.n && 0 <= r < w.rows ::
        if SharedBefore(share, sl, p.tile, s.lanes, t, r) then Correct(w, a, out, t, r)
        else out[Flat(t, r, w.rows)] == old(out[Flat(t, r, w.rows)])
    {
      RunSlab(w, a, p, s, instr, kb, share.c0, share.c1, sl, out);
      forall t, r | 0 <= t < a.n && 0 <= r < w.rows
        ensures SharedBefore(share, sl + 1, p.tile, s.lanes, t, r) <==>
          SharedBefore(share, sl, p.tile, s.lanes, t, r) ||
          SlabOwns(share.c0, share.c1, sl, p.tile, s.lanes, t, r)
      {
        SharedStep(share, sl, p.tile, s.lanes, t, r);
      }
    }
  }

  lemma SharedStep(share: Share, sl: nat, tile: nat, srows: nat, t: nat, r: nat)
    requires tile > 0 && srows > 0 && share.s0 <= sl
    ensures SharedBefore(share, sl + 1, tile, srows, t, r) <==>
      SharedBefore(share, sl, tile, srows, t, r) || SlabOwns(share.c0, share.c1, sl, tile, srows, t, r)
  {
  }

  /** The slabs of the share before `sl`. */
  predicate SharedBefore(share: Share, sl: nat, tile: nat, srows: nat, t: nat, r: nat)
    requires tile > 0 && srows > 0
  {
    Owns(share.(s1 := sl), t / tile, r / srows)
  }

  lemma ShareEnds(sp: Split, item: nat, tile: nat, srows: nat, t: nat, r: nat)
    requires tile > 0 && srows > 0 && sp.perTb > 0
    ensures var share := ShareOf(sp, item);
      !SharedBefore(share, share.s0, tile, srows, t, r) &&
      (Mine(sp, item, tile, srows, t, r) <==> SharedBefore(share, share.s1, tile, srows, t, r))
  {
    hide ShareOf;
  }

  /** The outputs of one slab against a range of tiles. */
  predicate SlabOwns(c0: nat, c1: nat, sl: nat, tile: nat, srows: nat, t: nat, r: nat)
    requires tile > 0 && srows > 0
  {
    c0 <= t / tile < c1 && r / srows == sl
  }

  lemma JobIsSlab(job: Job, c0: nat, c1: nat, sl: nat, t: nat, r: nat)
    requires job.p.tile > 0 && job.s.lanes > 0 && job.r0 == sl * job.s.lanes
    ensures InTiles(job, c0, c1, t) && InLanes(job, r) <==> SlabOwns(c0, c1, sl, job.p.tile, job.s.lanes, t, r)
  {
    TileOf(t, c0, c1, job.p.tile);
    InPart(r, job.s.lanes, sl);
    assert (sl + 1) * job.s.lanes == sl * job.s.lanes + job.s.lanes;
  }

  method RunSlab(w: Weight, a: Acts, p: Packed, s: Slab, instr: Instr, kb: nat, c0: nat, c1: nat, sl: nat,
                 out: array<Float>)
    requires Compatible(w, a) && PackedShape(p, a) && AllPacked(p, a) && SlabShape(s, w) && kb > 0 && s.lanes > 0
    requires c0 < c1 <= p.x.Length0 && sl < CeilDiv(w.rows, s.lanes) && OutShape(w, a, out) && Separate(p, s, out)
    modifies out, s.wexp, s.dw
    ensures AllPacked(p, a)
    ensures forall t, r | 0 <= t < a.n && 0 <= r < w.rows ::
      if SlabOwns(c0, c1, sl, p.tile, s.lanes, t, r) then Correct(w, a, out, t, r)
      else out[Flat(t, r, w.rows)] == old(out[Flat(t, r, w.rows)])
  {
    hide AllPacked, SlabFilled, ActsOk, WeightOk, Flat, Correct, CeilDiv, OutShape, InTiles, InLanes, SlabOwns;
    var r0 := sl * s.lanes;
    SlabStarts(w.rows, s.lanes, sl);
    FillSlab(s, w, r0);
    var job := Job(w, a, p, s, r0);
    RunJob(job, instr, kb, c0, c1, out);
    forall t, r | 0 <= t < a.n && 0 <= r < w.rows
      ensures InTiles(job, c0, c1, t) && InLanes(job, r) <==> SlabOwns(c0, c1, sl, p.tile, s.lanes, t, r)
    {
      JobIsSlab(job, c0, c1, sl, t, r);
    }
  }

  lemma SlabStarts(rows: nat, lanes: nat, sl: nat)
    requires lanes > 0 && sl < CeilDiv(rows, lanes)
    ensures sl * lanes < rows
  {
    if rows > 0 {
      FirstOfPart(rows, lanes, sl);
    }
  }

  lemma TileOf(t: nat, c0: nat, c1: nat, tile: nat)
    requires tile > 0
    ensures c0 * tile <= t < c1 * tile <==> c0 <= t / tile < c1
  {
    var q := t / tile;
    InPart(t, tile, q);
    BoundOf(t, q, c0, tile);
    BoundOf(t, q, c1, tile);
  }

  lemma BoundOf(t: nat, q: nat, c: nat, tile: nat)
    requires q * tile <= t < (q + 1) * tile
    ensures c * tile <= t <==> c <= q
  {
    if c <= q {
      MulOrdered(c, q, tile);
    } else {
      MulOrdered(q + 1, c, tile);
    }
  }

  lemma MulOrdered(a: nat, b: nat, size: nat)
    requires a <= b
    ensures a * size <= b * size
  {
  }

  /** Items may run in any order, and each at least once: every output is the
      reference result. */
  method GemmTiled(w: Weight, a: Acts, p: Packed, s: Slab, instr: Instr, kb: nat, threads: nat, order: seq<nat>,
                   out: array<Float>)
    requires Compatible(w, a) && PackedShape(p, a) && SlabShape(s, w) && kb > 0 && s.lanes > 0 && a.n > 0 && w.rows > 0
    requires p.x.Length0 == CeilDiv(a.n, p.tile) && out.Length == a.n * w.rows && Separate(p, s, out)
    requires forall i | 0 <= i < Items(SplitOf(a.n, w.rows, p.tile, s.lanes, threads)) :: i in order
    requires forall i | i in order :: i < Items(SplitOf(a.n, w.rows, p.tile, s.lanes, threads))
    modifies out, p.x, p.ns, p.dx, s.wexp, s.dw
    ensures OutShape(w, a, out) && forall t, r | 0 <= t < a.n && 0 <= r < w.rows :: Correct(w, a, out, t, r)
  {
    hide AllPacked, ActsOk, WeightOk, SplitOk, Flat, Mine, Correct, CeilDiv, OutShape, Items, SplitOf;
    var sp := SplitOf(a.n, w.rows, p.tile, s.lanes, threads);
    SplitIsOk(a.n, w.rows, p.tile, s.lanes, threads);
    AllInside(w, a, out);
    FillPacked(p, a);
    for n := 0 to |order|
      invariant AllPacked(p, a) && forall i | 0 <= i < n :: CorrectFor(w, a, out, sp, order[i], p.tile, s.lanes)
    {
      assert order[n] in order;
      RunNext(w, a, p, s, instr, kb, sp, order[n], order[..n], out);
    }
    forall t, r | 0 <= t < a.n && 0 <= r < w.rows ensures Correct(w, a, out, t, r) {
      var item := Covered(a.n, w.rows, p.tile, s.lanes, sp, t, r);
      assert item in order;
      var i :| 0 <= i < |order| && order[i] == item;
      assert CorrectFor(w, a, out, sp, order[i], p.tile, s.lanes);
    }
  }

  /** Every output of the item is right. */
  ghost predicate CorrectFor(w: Weight, a: Acts, out: array<Float>, sp: Split, item: nat, tile: nat, srows: nat)
    requires Compatible(w, a) && OutShape(w, a, out) && tile > 0 && srows > 0 && sp.perTb > 0
    reads out
  {
    forall t, r | 0 <= t < a.n && 0 <= r < w.rows && Mine(sp, item, tile, srows, t, r) :: Correct(w, a, out, t, r)
  }

  /** Another item spoils nothing. */
  method RunNext(w: Weight, a: Acts, p: Packed, s: Slab, instr: Instr, kb: nat, sp: Split, item: nat,
                 ghost done: seq<nat>, out: array<Float>)
    requires Compatible(w, a) && PackedShape(p, a) && AllPacked(p, a) && SlabShape(s, w) && kb > 0 && s.lanes > 0
    requires SplitOk(sp) && sp.ntiles == p.x.Length0 && sp.nslab == CeilDiv(w.rows, s.lanes) && item < Items(sp)
    requires OutShape(w, a, out) && Separate(p, s, out)
    requires forall i | 0 <= i < |done| :: CorrectFor(w, a, out, sp, done[i], p.tile, s.lanes)
    modifies out, s.wexp, s.dw
    ensures AllPacked(p, a) && CorrectFor(w, a, out, sp, item, p.tile, s.lanes)
    ensures forall i | 0 <= i < |done| :: CorrectFor(w, a, out, sp, done[i], p.tile, s.lanes)
  {
    hide AllPacked, ActsOk, WeightOk, Flat, Mine, CeilDiv, Items;
    RunItem(w, a, p, s, instr, kb, sp, item, out);
    forall i | 0 <= i < |done| ensures CorrectFor(w, a, out, sp, done[i], p.tile, s.lanes) {
      assert old(CorrectFor(w, a, out, sp, done[i], p.tile, s.lanes));
    }
  }

  /** Every output belongs to some item, and to one only. */
  lemma Covered(n: nat, rows: nat, tile: nat, srows: nat, sp: Split, t: nat, r: nat) returns (item: nat)
    requires SplitOk(sp) && tile > 0 && srows > 0 && t < n && r < rows
    requires sp.ntiles == CeilDiv(n, tile) && sp.nslab == CeilDiv(rows, srows)
    ensures item < Items(sp) && Mine(sp, item, tile, srows, t, r)
    ensures forall other | 0 <= other < Items(sp) && Mine(sp, other, tile, srows, t, r) :: other == item
  {
    hide CeilDiv, ShareOf;
    PartExists(t, n, tile);
    PartExists(r, rows, srows);
    item := Owner(sp, t / tile, r / srows);
    OwnerIsItem(sp, t / tile, r / srows);
    SplitIsExact(sp, t / tile, r / srows, item);
    forall other | 0 <= other < Items(sp) && Mine(sp, other, tile, srows, t, r) ensures other == item {
      SplitIsExact(sp, t / tile, r / srows, other);
    }
  }

  lemma OwnerIsItem(sp: Split, c: nat, sl: nat)
    requires SplitOk(sp) && c < sp.ntiles && sl < sp.nslab
    ensures Owner(sp, c, sl) < Items(sp)
  {
    hide CeilDiv;
    PartExists(c, sp.ntiles, sp.tpb);
    PartExists(sl, sp.nslab, sp.spi);
    Inside(c / sp.tpb, sp.ntb, sl / sp.spi, sp.perTb);
  }

  lemma AllInside(w: Weight, a: Acts, out: array<Float>)
    requires out.Length == a.n * w.rows
    ensures OutShape(w, a, out)
  {
    forall t, r | 0 <= t < a.n && 0 <= r < w.rows ensures Flat(t, r, w.rows) < out.Length {
      FlatInside(t, r, a.n, w.rows);
    }
  }
}
