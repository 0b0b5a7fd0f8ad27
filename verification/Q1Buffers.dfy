/** The buffers of the tiled kernels: derived activations, activations regrouped
    by token tile, and expanded weights of a slab of rows. Padding included. */
module Q1Buffers {
  import opened Q1Bits
  import opened Q1Reference

  /** The permuted copy and negated sums of one quantized row. */
  method DeriveRow(q: seq<int>) returns (qp: seq<int>, nsum: seq<int>)
    requires |q| % 32 == 0 && forall e | 0 <= e < |q| :: -127 <= q[e] <= 127
    ensures RowOk(|q|, q, qp, nsum)
  {
    qp, nsum := [], [];
    for k := 0 to |q| / 32
      invariant |qp| == 32 * k && |nsum| == k
      invariant forall i | 0 <= i < k :: IsPermuted(Sub32(qp, i), Sub32(q, i)) && nsum[i] == -Sum(Sub32(q, i))
    {
      var sub := Sub32(q, k);
      var perm := seq(32, o requires 0 <= o < 32 => sub[8 * (o % 4) + o / 4]);
      var total := 0;
      for e := 0 to 32
        invariant total == Sum(sub[..e])
      {
        SumStep(sub, e);
        total := total + sub[e];
      }
      assert sub[..32] == sub;
      ghost var before := qp;
      qp, nsum := qp + perm, nsum + [-total];
      assert Sub32(qp, k) == perm;
      assert forall i | 0 <= i < k :: Sub32(qp, i) == Sub32(before, i);
    }
  }

  /** All rows: whatever was quantized can be multiplied. */
  method Derive(cols: nat, block: nat, q: seq<seq<int>>, d: seq<seq<Float>>) returns (a: Acts)
    requires block in {32, 128} && cols % block == 0 && |q| == |d|
    requires forall t | 0 <= t < |q| :: |q[t]| == cols && |d[t]| == cols / block
    requires forall t, e | 0 <= t < |q| && 0 <= e < cols :: -127 <= q[t][e] <= 127
    ensures ActsOk(a) && a == Acts(|q|, cols, block, q, d, a.qp, a.nsum)
  {
    hide RowOk;
    var qp, nsum := [], [];
    for t := 0 to |q|
      invariant |qp| == |nsum| == t
      invariant forall i | 0 <= i < t :: RowOk(cols, q[i], qp[i], nsum[i])
    {
      Blocks(cols, block);
      var x, ns := DeriveRow(q[t]);
      qp, nsum := qp + [x], nsum + [ns];
    }
    a := Acts(|q|, cols, block, q, d, qp, nsum);
  }

  // ----- activations by token tile ---------------------------------------------------

  /** Indexed by tile, sub-block or block, and token of the tile. */
  datatype Packed = Packed(tile: nat, x: array3<Sub>, ns: array3<int>, dx: array3<Float>)

  ghost predicate PackedShape(p: Packed, a: Acts) {
    ActsOk(a) && p.tile > 0 && p.x.Length0 == p.ns.Length0 == p.dx.Length0 && p.x.Length1 == Nsub(a) &&
    p.ns.Length1 == p.dx.Length1 == Nab(a) && p.x.Length2 == p.ns.Length2 == p.dx.Length2 == p.tile
  }

  /** Token `i` of tile `c` is packed; tokens past the last are zero. */
  ghost predicate TokenPacked(p: Packed, a: Acts, c: nat, i: nat)
    requires PackedShape(p, a) && c < p.x.Length0 && i < p.tile
    reads p.x, p.ns, p.dx
  {
    var t := c * p.tile + i;
    if t < a.n then
      (forall k | 0 <= k < Nsub(a) :: p.x[c, k, i] == PermSub(a, t, k)) &&
      forall j | 0 <= j < Nab(a) :: p.ns[c, j, i] == NegSum(a, t, j, Spa(a)) && p.dx[c, j, i] == a.d[t][j]
    else
      (forall k | 0 <= k < Nsub(a) :: p.x[c, k, i] == Zeros(32)) &&
      forall j | 0 <= j < Nab(a) :: p.ns[c, j, i] == 0 && p.dx[c, j, i] == Zero
  }

  function PermSub(a: Acts, t: nat, k: nat): Sub
    requires ActsOk(a) && t < a.n && k < Nsub(a)
  {
    Sub32(a.qp[t], k)
  }

  ghost predicate AllPacked(p: Packed, a: Acts)
    requires PackedShape(p, a)
    reads p.x, p.ns, p.dx
  {
    forall c, i | 0 <= c < p.x.Length0 && 0 <= i < p.tile :: TokenPacked(p, a, c, i)
  }

  twostate predicate SameToken(p: Packed, c: nat, i: nat)
    requires c < p.x.Length0 == p.ns.Length0 == p.dx.Length0 && i < p.x.Length2 == p.ns.Length2 == p.dx.Length2
    reads p.x, p.ns, p.dx
  {
    (forall k | 0 <= k < p.x.Length1 :: p.x[c, k, i] == old(p.x[c, k, i])) &&
    (forall j | 0 <= j < p.ns.Length1 :: p.ns[c, j, i] == old(p.ns[c, j, i])) &&
    forall j | 0 <= j < p.dx.Length1 :: p.dx[c, j, i] == old(p.dx[c, j, i])
  }

  /** Minus the sums of the activation blocks of a row. */
  method BlockSums(a: Acts, t: nat) returns (sums: seq<int>)
    requires ActsOk(a) && t < a.n
    ensures |sums| == Nab(a) && forall j | 0 <= j < Nab(a) :: sums[j] == NegSum(a, t, j, Spa(a))
  {
    hide RowOk;
    sums := [];
    for j := 0 to Nab(a)
      invariant |sums| == j && forall j' | 0 <= j' < j :: sums[j'] == NegSum(a, t, j', Spa(a))
    {
      var total := 0;
      for s := 0 to Spa(a)
        invariant total == NegSum(a, t, j, s)
      {
        SubInside(a, j, s);
        SumsInside(a, t);
        total := total + a.nsum[t][j * Spa(a) + s];
      }
      sums := sums + [total];
    }
  }

  lemma SumsInside(a: Acts, t: nat)
    requires ActsOk(a) && t < a.n
    ensures |a.nsum[t]| == Nsub(a) && |a.qp[t]| == a.cols == 32 * Nsub(a)
  {
  }

  /** Fill the slots of one token, whatever they held. */
  method FillToken(p: Packed, a: Acts, c: nat, i: nat)
    requires PackedShape(p, a) && c < p.x.Length0 && i < p.tile
    modifies p.x, p.ns, p.dx
    ensures TokenPacked(p, a, c, i)
    ensures forall c', i' | 0 <= c' < p.x.Length0 && 0 <= i' < p.tile && (c' != c || i' != i) :: SameToken(p, c', i')
  {
    hide RowOk, NegSum, PermSub;
    var t := c * p.tile + i;
    if t < a.n {
      var subs := seq(Nsub(a), k requires 0 <= k < Nsub(a) => PermSub(a, t, k));
      var sums := BlockSums(a, t);
      PutSubs(p.x, c, i, subs);
      PutBlocks(p.ns, p.dx, c, i, sums, a.d[t]);
    } else {
      PutSubs(p.x, c, i, seq(Nsub(a), k => Zeros(32)));
      PutBlocks(p.ns, p.dx, c, i, seq(Nab(a), j => 0), seq(Nab(a), j => Zero));
    }
  }

  method PutSubs(x: array3<Sub>, c: nat, i: nat, subs: seq<Sub>)
    requires c < x.Length0 && |subs| == x.Length1 && i < x.Length2
    modifies x
    ensures forall k | 0 <= k < x.Length1 :: x[c, k, i] == subs[k]
    ensures forall c', k, i' | 0 <= c' < x.Length0 && 0 <= k < x.Length1 && 0 <= i' < x.Length2 && (c' != c || i' != i) ::
      x[c', k, i'] == old(x[c', k, i'])
  {
    for k := 0 to x.Length1
      invariant forall k' | 0 <= k' < k :: x[c, k', i] == subs[k']
      invariant forall c', k', i' |
        0 <= c' < x.Length0 && 0 <= k' < x.Length1 && 0 <= i' < x.Length2 && (c' != c || i' != i) ::
        x[c', k', i'] == old(x[c', k', i'])
    {
      x[c, k, i] := subs[k];
    }
  }

  method PutBlocks(ns: array3<int>, dx: array3<Float>, c: nat, i: nat, sums: seq<int>, scales: seq<Float>)
    requires c < ns.Length0 == dx.Length0 && |sums| == |scales| == ns.Length1 == dx.Length1
    requires i < ns.Length2 == dx.Length2
    modifies ns, dx
    ensures forall j | 0 <= j < ns.Length1 :: ns[c, j, i] == sums[j] && dx[c, j, i] == scales[j]
    ensures forall c', j, i' | 0 <= c' < ns.Length0 && 0 <= j < ns.Length1 && 0 <= i' < ns.Length2 && (c' != c || i' != i) ::
      ns[c', j, i'] == old(ns[c', j, i']) && dx[c', j, i'] == old(dx[c', j, i'])
  {
    for j := 0 to ns.Length1
      invariant forall j' | 0 <= j' < j :: ns[c, j', i] == sums[j'] && dx[c, j', i] == scales[j']
      invariant forall c', j', i' |
        0 <= c' < ns.Length0 && 0 <= j' < ns.Length1 && 0 <= i' < ns.Length2 && (c' != c || i' != i) ::
        ns[c', j', i'] == old(ns[c', j', i']) && dx[c', j', i'] == old(dx[c', j', i'])
    {
      ns[c, j, i] := sums[j];
      dx[c, j, i] := scales[j];
    }
  }

  method FillPacked(p: Packed, a: Acts)
    requires PackedShape(p, a)
    modifies p.x, p.ns, p.dx
    ensures AllPacked(p, a)
  {
    hide TokenPacked, RowOk;
    for c := 0 to p.x.Length0
      invariant forall c', i' | 0 <= c' < c && 0 <= i' < p.tile :: TokenPacked(p, a, c', i')
    {
      for i := 0 to p.tile
        invariant forall c', i' | 0 <= c' < c && 0 <= i' < p.tile :: TokenPacked(p, a, c', i')
        invariant forall i' | 0 <= i' < i :: TokenPacked(p, a, c, i')
      {
        FillNext(p, a, c, i);
      }
    }
  }

  method FillNext(p: Packed, a: Acts, c: nat, i: nat)
    requires PackedShape(p, a) && c < p.x.Length0 && i < p.tile
    requires forall c', i' | 0 <= c' < c && 0 <= i' < p.tile :: TokenPacked(p, a, c', i')
    requires forall i' | 0 <= i' < i :: TokenPacked(p, a, c, i')
    modifies p.x, p.ns, p.dx
    ensures forall c', i' | 0 <= c' < c && 0 <= i' < p.tile :: TokenPacked(p, a, c', i')
    ensures forall i' | 0 <= i' <= i :: TokenPacked(p, a, c, i')
  {
    hide RowOk, NegSum, PermSub;
    FillToken(p, a, c, i);
    forall c', i' | 0 <= c' <= c && 0 <= i' < p.tile && (c' < c || i' < i) ensures TokenPacked(p, a, c', i') {
      assert SameToken(p, c', i') && old(TokenPacked(p, a, c', i'));
    }
  }

  // ----- expanded weights of a slab ---------------------------------------------------

  /** Expanded groups by sub-block, group and lane; scales by block and lane. */
  datatype Slab = Slab(lanes: nat, wexp: array3<bv32>, dw: array2<Float>)

  ghost predicate SlabShape(s: Slab, w: Weight) {
    WeightOk(w) && s.wexp.Length0 == w.cols / 32 && s.wexp.Length1 == 8 && s.wexp.Length2 == s.lanes &&
    s.dw.Length0 == Nb(w) && s.dw.Length1 == s.lanes
  }

  /** Lane `l` holds row `r0 + l`; lanes past the last row are zero. */
  ghost predicate LaneFilled(s: Slab, w: Weight, r0: nat, l: nat)
    requires SlabShape(s, w) && l < s.lanes
    reads s.wexp, s.dw
  {
    if r0 + l < w.rows then
      (forall k, g | 0 <= k < w.cols / 32 && 0 <= g < 8 :: s.wexp[k, g, l] == GroupWord(w, r0 + l, k, g)) &&
      forall b | 0 <= b < Nb(w) :: s.dw[b, l] == w.scale[r0 + l][b]
    else
      (forall k, g | 0 <= k < w.cols / 32 && 0 <= g < 8 :: s.wexp[k, g, l] == 0) &&
      forall b | 0 <= b < Nb(w) :: s.dw[b, l] == Zero
  }

  function GroupWord(w: Weight, r: nat, k: nat, g: nat): bv32
    requires WeightOk(w) && r < w.rows && k < w.cols / 32 && g < 8
  {
    ColsWhole(w);
    Expand(WordOf(SignsOf(w, r, k)), g)
  }

  lemma ColsWhole(w: Weight)
    requires WeightOk(w)
    ensures w.cols == 32 * (w.cols / 32)
  {
    Blocks(w.cols, w.block);
  }

  ghost predicate SlabFilled(s: Slab, w: Weight, r0: nat)
    requires SlabShape(s, w)
    reads s.wexp, s.dw
  {
    forall l | 0 <= l < s.lanes :: LaneFilled(s, w, r0, l)
  }

  /** Expand the rows of a slab, whatever the buffers held. */
  method FillSlab(s: Slab, w: Weight, r0: nat)
    requires SlabShape(s, w)
    modifies s.wexp, s.dw
    ensures SlabFilled(s, w, r0)
  {
    hide GroupWord;
    var rows := w.rows;
    for l := 0 to s.lanes
      invariant forall l' | 0 <= l' < l :: LaneFilled(s, w, r0, l')
    {
      FillLane(s, w, r0, l);
    }
  }

  method FillLane(s: Slab, w: Weight, r0: nat, l: nat)
    requires SlabShape(s, w) && l < s.lanes
    requires forall l' | 0 <= l' < l :: LaneFilled(s, w, r0, l')
    modifies s.wexp, s.dw
    ensures forall l' | 0 <= l' <= l :: LaneFilled(s, w, r0, l')
  {
    hide GroupWord;
    for b := 0 to Nb(w)
      invariant forall b' | 0 <= b' < b :: s.dw[b', l] == if r0 + l < w.rows then w.scale[r0 + l][b'] else Zero
      invariant forall b', l' | 0 <= b' < Nb(w) && 0 <= l' < s.lanes && l' != l :: s.dw[b', l'] == old(s.dw[b', l'])
      modifies s.dw
    {
      s.dw[b, l] := if r0 + l < w.rows then w.scale[r0 + l][b] else Zero;
    }
    for k := 0 to w.cols / 32
      invariant forall k', g | 0 <= k' < k && 0 <= g < 8 :: s.wexp[k', g, l] == Wanted(w, r0 + l, k', g)
      invariant forall k', g, l' | 0 <= k' < w.cols / 32 && 0 <= g < 8 && 0 <= l' < s.lanes && l' != l ::
        s.wexp[k', g, l'] == old(s.wexp[k', g, l'])
      modifies s.wexp
    {
      for g := 0 to 8
        invariant forall k', g' | 0 <= k' < k && 0 <= g' < 8 :: s.wexp[k', g', l] == Wanted(w, r0 + l, k', g')
        invariant forall g' | 0 <= g' < g :: s.wexp[k, g', l] == Wanted(w, r0 + l, k, g')
        invariant forall k', g', l' | 0 <= k' < w.cols / 32 && 0 <= g' < 8 && 0 <= l' < s.lanes && l' != l ::
          s.wexp[k', g', l'] == old(s.wexp[k', g', l'])
        modifies s.wexp
      {
        s.wexp[k, g, l] := Wanted(w, r0 + l, k, g);
      }
    }
    forall l' | 0 <= l' < l ensures LaneFilled(s, w, r0, l') {
      assert old(LaneFilled(s, w, r0, l'));
    }
  }

  function Wanted(w: Weight, r: nat, k: nat, g: nat): bv32
    requires WeightOk(w) && k < w.cols / 32 && g < 8
  {
    if r < w.rows then GroupWord(w, r, k, g) else 0
  }
}
