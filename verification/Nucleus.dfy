/** Truncation of a dense weight vector: masked sums, the exact top-p threshold
    and the inverse-CDF scan. A weight is the bit pattern of a non-negative
    float; `val` gives its value, strictly increasing in the pattern. Sums are
    exact. */
module Nucleus {
  import opened Wrappers

  type Value = nat -> real

  ghost predicate Increasing(val: Value) {
    val(0) == 0.0 && forall a, b | a < b :: val(a) < val(b)
  }

  lemma NotNegative(val: Value, b: nat)
    requires Increasing(val)
    ensures val(b) >= 0.0 && (b > 0 ==> val(b) > 0.0)
  {
    assert b > 0 ==> val(0) < val(b);
  }

  /** The sum of the weights at or above `t`. */
  function Mass(val: Value, w: seq<nat>, t: nat): real {
    if w == [] then 0.0
    else Mass(val, w[..|w| - 1], t) + if w[|w| - 1] >= t then val(w[|w| - 1]) else 0.0
  }

  function Count(w: seq<nat>, t: nat): nat {
    if w == [] then 0 else Count(w[..|w| - 1], t) + if w[|w| - 1] >= t then 1 else 0
  }

  lemma MassStep(val: Value, w: seq<nat>, t: nat, n: nat)
    requires n < |w|
    ensures Mass(val, w[..n + 1], t) == Mass(val, w[..n], t) + if w[n] >= t then val(w[n]) else 0.0
  {
    assert w[..n + 1][..n] == w[..n];
  }

  lemma CountStep(w: seq<nat>, t: nat, n: nat)
    requires n < |w|
    ensures Count(w[..n + 1], t) == Count(w[..n], t) + if w[n] >= t then 1 else 0
  {
    assert w[..n + 1][..n] == w[..n];
  }

  lemma {:induction false} MassFalls(val: Value, w: seq<nat>, t: nat, t': nat)
    requires Increasing(val) && t <= t'
    ensures 0.0 <= Mass(val, w, t') <= Mass(val, w, t)
  {
    if w != [] {
      MassFalls(val, w[..|w| - 1], t, t');
      NotNegative(val, w[|w| - 1]);
    }
  }

  lemma {:induction false} CountFalls(w: seq<nat>, t: nat, t': nat)
    requires t <= t'
    ensures Count(w, t') <= Count(w, t)
  {
    if w != [] {
      CountFalls(w[..|w| - 1], t, t');
    }
  }

  lemma {:induction false} MassAppend(val: Value, a: seq<nat>, b: seq<nat>, t: nat)
    ensures Mass(val, a + b, t) == Mass(val, a, t) + Mass(val, b, t)
    decreases |b|
  {
    if b == [] {
      assert a + b == a;
    } else {
      assert (a + b)[..|a + b| - 1] == a + b[..|b| - 1];
      MassAppend(val, a, b[..|b| - 1], t);
    }
  }

  lemma {:induction false} NothingAbove(val: Value, w: seq<nat>, t: nat)
    requires forall i | 0 <= i < |w| :: w[i] < t
    ensures Mass(val, w, t) == 0.0
  {
    if w != [] {
      NothingAbove(val, w[..|w| - 1], t);
    }
  }

  /** One pass: sum and count. */
  method MaskedSum(val: Value, w: seq<nat>, t: nat) returns (s: real, n: nat)
    ensures s == Mass(val, w, t) && n == Count(w, t)
  {
    s, n := 0.0, 0;
    for i := 0 to |w|
      invariant s == Mass(val, w[..i], t) && n == Count(w[..i], t)
    {
      MassStep(val, w, t, i);
      CountStep(w, t, i);
      if w[i] >= t {
        s, n := s + val(w[i]), n + 1;
      }
    }
    assert w[..|w|] == w;
  }

  // ----- the threshold ------------------------------------------------------------

  /** The largest threshold whose weights still reach the target. */
  ghost predicate IsThreshold(val: Value, w: seq<nat>, target: real, t: nat) {
    Mass(val, w, t) >= target && forall t' | t' > t :: Mass(val, w, t') < target
  }

  lemma OnlyThreshold(val: Value, w: seq<nat>, target: real, s: nat, t: nat)
    requires IsThreshold(val, w, target, s) && IsThreshold(val, w, target, t)
    ensures s == t
  {
  }

  /** The weights in `[lo, hi)`, in order. */
  function Band(w: seq<nat>, lo: nat, hi: nat): (r: seq<nat>)
    ensures forall i | 0 <= i < |r| :: lo <= r[i] < hi
  {
    if w == [] then []
    else
      var x := w[|w| - 1];
      Band(w[..|w| - 1], lo, hi) + if lo <= x < hi then [x] else []
  }

  lemma {:induction false} BandAppend(a: seq<nat>, b: seq<nat>, lo: nat, hi: nat)
    ensures Band(a + b, lo, hi) == Band(a, lo, hi) + Band(b, lo, hi)
    decreases |b|
  {
    if b == [] {
      assert a + b == a;
    } else {
      assert (a + b)[..|a + b| - 1] == a + b[..|b| - 1];
      BandAppend(a, b[..|b| - 1], lo, hi);
    }
  }

  lemma {:induction false} BandMass(val: Value, w: seq<nat>, lo: nat, hi: nat, t: nat)
    requires lo <= t <= hi
    ensures Mass(val, w, t) == Mass(val, w, hi) + Mass(val, Band(w, lo, hi), t)
  {
    if w != [] {
      var init, x := w[..|w| - 1], w[|w| - 1];
      BandMass(val, init, lo, hi, t);
      BandMass(val, init, lo, hi, t);
      MassAppend(val, Band(init, lo, hi), if lo <= x < hi then [x] else [], t);
      assert [x][..0] == [];
    }
  }

  const LANES: nat := 16

  /** Gather the band, skipping blocks of 16 without a member. */
  method Gather(w: seq<nat>, lo: nat, hi: nat) returns (band: seq<nat>)
    ensures band == Band(w, lo, hi)
  {
    band := [];
    var i := 0;
    while i < |w|
      invariant i <= |w| && band == Band(w[..i], lo, hi)
      decreases |w| - i
    {
      var end := if i + LANES < |w| then i + LANES else |w|;
      var block := w[i..end];
      assert w[..end] == w[..i] + block;
      BandAppend(w[..i], block, lo, hi);
      if exists j | 0 <= j < |block| :: lo <= block[j] < hi {
        var members := Filter(block, lo, hi);
        band := band + members;
      } else {
        NoMember(block, lo, hi);
      }
      i := end;
    }
    assert w[..|w|] == w;
  }

  method Filter(block: seq<nat>, lo: nat, hi: nat) returns (r: seq<nat>)
    ensures r == Band(block, lo, hi)
  {
    r := [];
    for j := 0 to |block|
      invariant r == Band(block[..j], lo, hi)
    {
      assert block[..j + 1][..j] == block[..j];
      if lo <= block[j] < hi {
        r := r + [block[j]];
      }
    }
    assert block[..|block|] == block;
  }

  lemma {:induction false} NoMember(block: seq<nat>, lo: nat, hi: nat)
    requires forall j | 0 <= j < |block| :: !(lo <= block[j] < hi)
    ensures Band(block, lo, hi) == []
  {
    if block != [] {
      NoMember(block[..|block| - 1], lo, hi);
    }
  }

  // ----- sorting -----------------------------------------------------------------------

  ghost predicate Descending(s: seq<nat>) {
    forall i, j | 0 <= i <= j < |s| :: s[i] >= s[j]
  }

  function InsertDown(s: seq<nat>, x: nat): (r: seq<nat>)
    ensures |r| == |s| + 1
  {
    if s == [] || s[|s| - 1] >= x then s + [x] else InsertDown(s[..|s| - 1], x) + [s[|s| - 1]]
  }

  lemma {:induction false} InsertIsSorted(s: seq<nat>, x: nat)
    requires Descending(s)
    ensures Descending(InsertDown(s, x)) && forall y | y in InsertDown(s, x) :: y == x || y in s
  {
    if s != [] && s[|s| - 1] < x {
      var n := |s| - 1;
      InsertIsSorted(s[..n], x);
      var r := InsertDown(s[..n], x);
      forall i | 0 <= i < |r| ensures r[i] >= s[n] {
        assert r[i] in r;
      }
    }
  }

  lemma {:induction false} InsertMass(val: Value, s: seq<nat>, x: nat, t: nat)
    ensures Mass(val, InsertDown(s, x), t) == Mass(val, s, t) + if x >= t then val(x) else 0.0
  {
    if s == [] || s[|s| - 1] >= x {
      assert (s + [x])[..|s|] == s;
    } else {
      var n := |s| - 1;
      InsertMass(val, s[..n], x, t);
      var r := InsertDown(s[..n], x);
      assert (r + [s[n]])[..|r|] == r;
    }
  }

  function SortDown(s: seq<nat>): (r: seq<nat>)
    ensures |r| == |s|
  {
    if s == [] then [] else InsertDown(SortDown(s[..|s| - 1]), s[|s| - 1])
  }

  lemma {:induction false} SortIsSorted(val: Value, s: seq<nat>, t: nat)
    ensures Descending(SortDown(s)) && Mass(val, SortDown(s), t) == Mass(val, s, t)
    ensures forall y | y in SortDown(s) :: y in s
  {
    if s != [] {
      SortIsSorted(val, s[..|s| - 1], t);
      InsertIsSorted(SortDown(s[..|s| - 1]), s[|s| - 1]);
      InsertMass(val, SortDown(s[..|s| - 1]), s[|s| - 1], t);
    }
  }

  // ----- bisection ---------------------------------------------------------------------

  const BAND: nat := 512

  /** In a descending sequence, what is above `s[i]` lies before it, and all of
      `s[..i + 1]` is at or above it. */
  lemma {:induction false} PrefixMass(val: Value, s: seq<nat>, i: nat, t: nat)
    requires Increasing(val) && Descending(s) && i < |s|
    ensures t > s[i] ==> Mass(val, s, t) <= Mass(val, s[..i], 0)
    ensures t == s[i] ==> Mass(val, s, t) >= Mass(val, s[..i + 1], 0)
  {
    var n := |s| - 1;
    NotNegative(val, s[n]);
    if i == n {
      MassFalls(val, s[..n], 0, t);
      if t > s[n] {
      } else if t == s[n] {
        AllAtOrAbove(val, s, t);
        assert s[..n + 1] == s;
      }
    } else {
      assert s[..n][..i] == s[..i] && s[..n][..i + 1] == s[..i + 1];
      PrefixMass(val, s[..n], i, t);
    }
  }

  lemma {:induction false} AllAtOrAbove(val: Value, s: seq<nat>, t: nat)
    requires forall i | 0 <= i < |s| :: s[i] >= t
    ensures Mass(val, s, t) == Mass(val, s, 0)
  {
    if s != [] {
      AllAtOrAbove(val, s[..|s| - 1], t);
    }
  }

  /** Walk the undecided weights from the largest down. */
  method Walk(val: Value, w: seq<nat>, target: real, lo: nat, hi: nat, above: real, band: seq<nat>) returns (t: nat)
    requires Increasing(val) && lo < hi && above == Mass(val, w, hi) && band == SortDown(Band(w, lo, hi))
    requires Mass(val, w, lo) >= target > Mass(val, w, hi)
    ensures IsThreshold(val, w, target, t)
  {
    hide Mass, Band, SortDown, InsertDown;
    SortIsSorted(val, Band(w, lo, hi), 0);
    EmptyMass(val);
    var acc := above;
    var i := 0;
    while i < |band| && acc + val(band[i]) < target
      invariant i <= |band| && acc == above + Mass(val, band[..i], 0) && acc < target
      decreases |band| - i
    {
      MassStep(val, band, 0, i);
      acc, i := acc + val(band[i]), i + 1;
    }
    NotShort(val, w, target, lo, hi, band, i, acc);
    t := band[i];
    MassStep(val, band, 0, i);
    FoundThreshold(val, w, target, lo, hi, band, i);
  }

  lemma EmptyMass(val: Value)
    ensures Mass(val, [], 0) == 0.0
  {
  }

  lemma {:induction false} SortedMass(val: Value, w: seq<nat>, lo: nat, hi: nat, band: seq<nat>, t: nat)
    requires band == SortDown(Band(w, lo, hi)) && lo <= t <= hi
    ensures Mass(val, w, t) == Mass(val, w, hi) + Mass(val, band, t)
  {
    BandMass(val, w, lo, hi, t);
    SortIsSorted(val, Band(w, lo, hi), t);
  }

  /** With exact sums the walk never runs out. */
  lemma {:induction false} NotShort(val: Value, w: seq<nat>, target: real, lo: nat, hi: nat, band: seq<nat>, i: nat,
                                    acc: real)
    requires Increasing(val) && lo < hi && band == SortDown(Band(w, lo, hi)) && i <= |band|
    requires acc == Mass(val, w, hi) + Mass(val, band[..i], 0) && acc < target <= Mass(val, w, lo)
    ensures i < |band|
  {
    hide Band, SortDown;
    SortedMass(val, w, lo, hi, band, lo);
    MassFalls(val, band, 0, lo);
    assert band[..|band|] == band;
  }

  lemma {:induction false} FoundThreshold(val: Value, w: seq<nat>, target: real, lo: nat, hi: nat, band: seq<nat>, i: nat)
    requires Increasing(val) && lo < hi && band == SortDown(Band(w, lo, hi)) && i < |band|
    requires Mass(val, w, hi) + Mass(val, band[..i], 0) < target <= Mass(val, w, hi) + Mass(val, band[..i + 1], 0)
    ensures IsThreshold(val, w, target, band[i])
  {
    hide Mass, Band, SortDown;
    SortIsSorted(val, Band(w, lo, hi), 0);
    var t := band[i];
    assert t in band;
    PrefixMass(val, band, i, t);
    SortedMass(val, w, lo, hi, band, t);
    forall t' | t' > t ensures Mass(val, w, t') < target {
      if t' <= hi {
        PrefixMass(val, band, i, t');
        SortedMass(val, w, lo, hi, band, t');
      } else {
        MassFalls(val, w, hi, t');
        MassFalls(val, band[..i], 0, 0);
      }
    }
  }

  /** Bisection over bit patterns, then a sorted walk of the last band. `one` is
      the pattern of 1.0, `hint` any starting pattern. */
  method TopPThreshold(val: Value, w: seq<nat>, target: real, hint: nat, one: nat) returns (t: nat)
    requires Increasing(val) && forall i | 0 <= i < |w| :: w[i] <= one
    requires 0.0 < target <= Mass(val, w, 0)
    ensures IsThreshold(val, w, target, t)
  {
    hide Mass, Count, Band, SortDown;
    var lo: nat := hint;
    var sLo, nLo := MaskedSum(val, w, lo);
    if sLo < target {
      lo := 0;
      sLo, nLo := MaskedSum(val, w, 0);
    }
    var hi: nat := one + 1;
    var sHi, nHi := 0.0, 0;
    AboveOne(val, w, one);
    StartsBelow(val, w, target, lo, one);
    while nLo - nHi > BAND && hi - lo > 1
      invariant lo < hi && nLo == Count(w, lo) && nHi == Count(w, hi) && sHi == Mass(val, w, hi)
      invariant Mass(val, w, lo) >= target > Mass(val, w, hi)
      decreases hi - lo
    {
      var mid: nat := lo + (hi - lo) / 2;
      var s, n := MaskedSum(val, w, mid);
      if s >= target {
        lo, nLo := mid, n;
      } else {
        hi, sHi, nHi := mid, s, n;
      }
    }
    if nLo - nHi > BAND {
      forall t' | t' > lo ensures Mass(val, w, t') < target {
        MassFalls(val, w, hi, t');
      }
      return lo;
    }
    var band := Gather(w, lo, hi);
    t := Walk(val, w, target, lo, hi, sHi, SortDown(band));
  }

  lemma AboveOne(val: Value, w: seq<nat>, one: nat)
    requires forall i | 0 <= i < |w| :: w[i] <= one
    ensures Mass(val, w, one + 1) == 0.0 && Count(w, one + 1) == 0
  {
    NothingAbove(val, w, one + 1);
    NoneAbove(w, one + 1);
  }

  lemma {:induction false} NoneAbove(w: seq<nat>, t: nat)
    requires forall i | 0 <= i < |w| :: w[i] < t
    ensures Count(w, t) == 0
  {
    if w != [] {
      NoneAbove(w[..|w| - 1], t);
    }
  }

  lemma StartsBelow(val: Value, w: seq<nat>, target: real, lo: nat, one: nat)
    requires Increasing(val) && Mass(val, w, lo) >= target > 0.0 == Mass(val, w, one + 1)
    ensures lo < one + 1
  {
    if one + 1 <= lo {
      MassFalls(val, w, one + 1, lo);
    }
  }

  // ----- the draw --------------------------------------------------------------------------

  const BLOCK: nat := 512

  /** Inverse CDF over the weights at or above `thr`: a block is scanned only if
      the draw falls into it. */
  method ScanDense(val: Value, w: seq<nat>, thr: nat, r: real) returns (res: Option<nat>)
    requires Increasing(val) && r >= 0.0
    ensures r < Mass(val, w, thr) ==> res.Some? && Hits(val, w, thr, r, res.value)
    ensures r >= Mass(val, w, thr) ==> res == LastEligible(w, thr)
  {
    hide Mass;
    EmptyMass2(val, thr);
    var acc := 0.0;
    var i := 0;
    while i < |w|
      invariant i <= |w| && acc == Mass(val, w[..i], thr) && acc <= r
      decreases |w| - i
    {
      var end := if i + BLOCK < |w| then i + BLOCK else |w|;
      var s, n := MaskedSum(val, w[i..end], thr);
      assert w[..end] == w[..i] + w[i..end];
      MassAppend(val, w[..i], w[i..end], thr);
      if acc + s > r {
        var t := ScanBlock(val, w, thr, r, i, end, acc);
        WholeIsMore(val, w, thr, end);
        return Some(t);
      }
      acc, i := acc + s, end;
    }
    assert w[..|w|] == w;
    res := LastEligible(w, thr);
  }

  lemma EmptyMass2(val: Value, t: nat)
    ensures Mass(val, [], t) == 0.0
  {
  }

  /** The draw `r` falls into the share of `t`. */
  ghost predicate Hits(val: Value, w: seq<nat>, thr: nat, r: real, t: nat) {
    t < |w| && w[t] >= thr && Mass(val, w[..t], thr) <= r < Mass(val, w[..t], thr) + val(w[t])
  }

  function LastEligible(w: seq<nat>, thr: nat): (r: Option<nat>)
    ensures r.Some? ==> r.value < |w| && w[r.value] >= thr && w[r.value] > 0
    ensures forall j | (if r.Some? then r.value else -1) < j < |w| :: w[j] < thr || w[j] == 0
  {
    if w == [] then None
    else if w[|w| - 1] >= thr && w[|w| - 1] > 0 then Some(|w| - 1)
    else LastEligible(w[..|w| - 1], thr)
  }

  lemma {:induction false} WholeIsMore(val: Value, w: seq<nat>, thr: nat, n: nat)
    requires Increasing(val) && n <= |w|
    ensures Mass(val, w[..n], thr) <= Mass(val, w, thr)
  {
    assert w == w[..n] + w[n..];
    MassAppend(val, w[..n], w[n..], thr);
    MassFalls(val, w[n..], thr, thr);
  }

  method ScanBlock(val: Value, w: seq<nat>, thr: nat, r: real, from: nat, end: nat, before: real) returns (t: nat)
    requires Increasing(val) && from < end <= |w| && before == Mass(val, w[..from], thr) <= r < Mass(val, w[..end], thr)
    ensures Hits(val, w, thr, r, t) && from <= t < end
  {
    hide Mass;
    var a := before;
    t := from;
    while !(w[t] >= thr && r < a + val(w[t]))
      invariant from <= t < end && a == Mass(val, w[..t], thr) <= r < Mass(val, w[..end], thr)
      decreases end - t
    {
      MassStep(val, w, thr, t);
      if w[t] >= thr {
        a := a + val(w[t]);
      }
      t := t + 1;
    }
  }
}
