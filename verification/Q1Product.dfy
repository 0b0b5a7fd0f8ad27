/** The whole product: whichever kernel is chosen for the number of tokens, the
    result is that of the scalar reference. */
module Q1Product {
  import opened Wrappers
  import opened Q1Bits
  import opened Q1Reference
  import opened Q1Buffers
  import opened Q1Lanes
  import opened Q1Gemm
  import opened Q1Multi

  /** The row kernel once per token; the tiled kernel with its tile and slab
      sizes; the small-batch kernel with its vector length. */
  datatype Kernel = Rows(chunk: Size) | Tiled(instr: Instr, tile: Size, lanes: Size, kb: Size) |
                    Multi(instr: Instr, lanes: Size, chunk: Size)

  type Size = n: nat | n > 0 witness 1

  const GEMM_TILED_MIN_TOKENS: nat := 17

  /** Row chunks, each against every token. */
  method GemmRows(w: Weight, a: Acts, chunk: nat, out: array<Float>)
    requires Compatible(w, a) && chunk > 0 && out.Length == a.n * w.rows
    modifies out
    ensures OutShape(w, a, out) && forall t, r | 0 <= t < a.n && 0 <= r < w.rows :: Correct(w, a, out, t, r)
  {
    hide WeightOk, ActsOk, Dot, Flat;
    AllInside(w, a, out);
    var r0 := 0;
    while r0 < w.rows
      invariant r0 <= w.rows
      invariant forall t, r | 0 <= t < a.n && 0 <= r < r0 :: Correct(w, a, out, t, r)
      decreases w.rows - r0
    {
      var cr := Min(chunk, w.rows - r0);
      SlabRows(w, a, r0, cr, out);
      r0 := r0 + cr;
    }
  }

  method SlabRows(w: Weight, a: Acts, r0: nat, cr: nat, out: array<Float>)
    requires Compatible(w, a) && r0 + cr <= w.rows && OutShape(w, a, out)
    modifies out
    ensures forall t, r | 0 <= t < a.n && 0 <= r < w.rows ::
      if r0 <= r < r0 + cr then Correct(w, a, out, t, r) else out[Flat(t, r, w.rows)] == old(out[Flat(t, r, w.rows)])
  {
    hide WeightOk, ActsOk, Dot, Flat;
    for t := 0 to a.n
      invariant forall t', r | 0 <= t' < a.n && 0 <= r < w.rows ::
        if t' < t && r0 <= r < r0 + cr then Correct(w, a, out, t', r)
        else out[Flat(t', r, w.rows)] == old(out[Flat(t', r, w.rows)])
    {
      var o := new Float[cr](i => Zero);
      DotRowsScalar(w, r0, a, t, o);
      StoreRows(w, a, t, r0, o[..], cr, out);
    }
  }

  method NewPacked(a: Acts, tile: nat) returns (p: Packed)
    requires ActsOk(a) && tile > 0
    ensures PackedShape(p, a) && p.tile == tile && p.x.Length0 == CeilDiv(a.n, tile) && fresh(Objects(p))
  {
    var tiles := CeilDiv(a.n, tile);
    var x := new Sub[tiles, Nsub(a), tile]((c, k, i) => Zeros(32));
    var ns := new int[tiles, Nab(a), tile]((c, j, i) => 0);
    var dx := new Float[tiles, Nab(a), tile]((c, j, i) => Zero);
    p := Packed(tile, x, ns, dx);
  }

  method NewSlab(w: Weight, lanes: nat) returns (s: Slab)
    requires WeightOk(w) && lanes > 0
    ensures SlabShape(s, w) && s.lanes == lanes && fresh(s.wexp) && fresh(s.dw)
  {
    var wexp := new bv32[w.cols / 32, 8, lanes]((k, j, l) => 0);
    var dw := new Float[Nb(w), lanes]((b, l) => Zero);
    s := Slab(lanes, wexp, dw);
  }

  /** Any order of the work items of the tiled kernel. */
  ghost predicate IsSchedule(order: seq<nat>, items: nat) {
    (forall i | 0 <= i < items :: i in order) && forall i | i in order :: i < items
  }

  function InTurn(items: nat): (order: seq<nat>)
    ensures IsSchedule(order, items)
  {
    if items == 0 then [] else InTurn(items - 1) + [items - 1]
  }

  /** One kernel on the whole product. */
  method GemmWith(k: Kernel, w: Weight, a: Acts, threads: nat, out: array<Float>)
    requires Compatible(w, a) && out.Length == a.n * w.rows
    modifies out
    ensures OutShape(w, a, out) && forall t, r | 0 <= t < a.n && 0 <= r < w.rows :: Correct(w, a, out, t, r)
  {
    hide WeightOk, ActsOk, Dot, Flat, CeilDiv, SplitOf, Items;
    AllInside(w, a, out);
    if a.n == 0 || w.rows == 0 {
      return;
    }
    match k {
      case Rows(chunk) => GemmRows(w, a, chunk, out);
      case Tiled(instr, tile, lanes, kb) =>
        var p := NewPacked(a, tile);
        var s := NewSlab(w, lanes);
        GemmTiled(w, a, p, s, instr, kb, threads, InTurn(Items(SplitOf(a.n, w.rows, tile, lanes, threads))), out);
      case Multi(instr, lanes, chunk) =>
        var p := NewPacked(a, MULTI_MAX_TOKENS);
        GemmMulti(w, a, p, instr, lanes, chunk, out);
    }
  }

  /** The kernel depends on the number of tokens, the result does not depend on
      the kernel. */
  method Gemm(one: Kernel, few: Kernel, many: Kernel, w: Weight, a: Acts, threads: nat, out: array<Float>)
    requires Compatible(w, a) && out.Length == a.n * w.rows
    modifies out
    ensures OutShape(w, a, out) && forall t, r | 0 <= t < a.n && 0 <= r < w.rows :: Correct(w, a, out, t, r)
  {
    var k := if a.n == 1 then one else if a.n < GEMM_TILED_MIN_TOKENS then few else many;
    GemmWith(k, w, a, threads, out);
  }
}
