/** Drawing a token and reporting the distribution: both truncate the same way,
    and the draw follows the report exactly. */
module Sampling {
  import opened Wrappers
  import opened Nucleus
  import opened TopK

  /** `weight(k, max)`: the pattern of exp(logit - max) for logits at places `k`
      and `max` of the float order. `one` is the pattern of 1.0, `low` the place
      of minus infinity, `tiny` the smallest target. `hint` starts the threshold
      search, `select` partitions around the k-th largest logit and `sort` orders
      a candidate list by descending key, both in any order among equals. */
  datatype Env = Env(val: nat -> real, one: nat, low: int, tiny: real, weight: (int, int) -> nat,
                     hint: (seq<nat>, real) -> nat, select: (seq<int>, nat) -> seq<Entry>,
                     sort: seq<Entry> -> seq<Entry>)

  ghost predicate SortedBy(s: seq<Entry>, b: seq<Entry>) {
    multiset(s) == multiset(b) && forall i, j | 0 <= i < j < |s| :: s[i].key >= s[j].key
  }

  ghost predicate EnvOk(env: Env) {
    Increasing(env.val) && env.val(env.one) == 1.0 && 0.0 < env.tiny <= 1.0 &&
    (forall k, m :: env.weight(k, m) <= env.one) && (forall m :: env.weight(m, m) == env.one) &&
    (forall keys: seq<int>, k: nat | 0 < k < |keys| :: Selects(keys, k, env.select(keys, k))) &&
    forall b :: SortedBy(env.sort(b), b)
  }

  datatype Params = Params(greedy: bool, topK: nat, topP: real, minP: nat)

  function RealMax(a: real, b: real): real {
    if a >= b then a else b
  }

  // ----- candidates and the draw ----------------------------------------------------

  datatype Cand = Cand(tok: nat, w: real)

  function Total(c: seq<Cand>): real {
    if c == [] then 0.0 else Total(c[..|c| - 1]) + c[|c| - 1].w
  }

  lemma TotalStep(c: seq<Cand>, n: nat)
    requires n < |c|
    ensures Total(c[..n + 1]) == Total(c[..n]) + c[n].w
  {
    assert c[..n + 1][..n] == c[..n];
  }

  /** Distinct tokens, non-negative weights, something to draw. */
  ghost predicate Proper(c: seq<Cand>) {
    (forall i | 0 <= i < |c| :: c[i].w >= 0.0) && (forall i, j | 0 <= i < j < |c| :: c[i].tok != c[j].tok) &&
    Total(c) > 0.0
  }

  /** The draw `r` falls into the share of candidate `i`. */
  ghost predicate Falls(c: seq<Cand>, r: real, i: nat) {
    i < |c| && Total(c[..i]) <= r < Total(c[..i]) + c[i].w
  }

  ghost predicate Draws(c: seq<Cand>, r: real, t: nat) {
    exists i: nat :: Falls(c, r, i) && c[i].tok == t
  }

  /** The uniform draw `u` returns token `t`. */
  ghost predicate Returns(c: seq<Cand>, u: real, t: nat) {
    Draws(c, u * Total(c), t)
  }

  /** The reported probability of a token. */
  function Prob(c: seq<Cand>, t: nat): real
    requires Total(c) > 0.0
  {
    if i :| 0 <= i < |c| && c[i].tok == t && (forall j | 0 <= j < i :: c[j].tok != t) then c[i].w / Total(c) else 0.0
  }

  lemma {:induction false} TotalGrows(c: seq<Cand>, m: nat, n: nat)
    requires m <= n <= |c| && forall i | 0 <= i < |c| :: c[i].w >= 0.0
    ensures 0.0 <= Total(c[..m]) <= Total(c[..n])
  {
    if n > 0 {
      TotalStep(c, n - 1);
      if m < n {
        TotalGrows(c, m, n - 1);
      } else {
        TotalGrows(c, m - 1, n - 1);
      }
    }
  }

  /** A draw falls into one share only. */
  lemma FallsOnce(c: seq<Cand>, r: real, i: nat, j: nat)
    requires forall i | 0 <= i < |c| :: c[i].w >= 0.0
    requires Falls(c, r, i) && i < j
    ensures !Falls(c, r, j)
  {
    if j < |c| {
      TotalStep(c, i);
      TotalGrows(c, i + 1, j);
    }
  }

  /** A uniform draw returns one token only. */
  lemma ReturnsOnce(c: seq<Cand>, u: real, s: nat, t: nat)
    requires Proper(c) && Returns(c, u, s) && Returns(c, u, t)
    ensures s == t
  {
    hide Total;
    var r := u * Total(c);
    var i: nat :| Falls(c, r, i) && c[i].tok == s;
    var j: nat :| Falls(c, r, j) && c[j].tok == t;
    if i < j {
      FallsOnce(c, r, i, j);
    } else if j < i {
      FallsOnce(c, r, j, i);
    }
  }

  /** The uniform draws that return token `t` form an interval whose length is
      the reported probability of `t`. */
  lemma {:induction false} DrawFollowsReport(c: seq<Cand>, t: nat) returns (lo: real)
    requires Proper(c)
    ensures 0.0 <= lo && lo + Prob(c, t) <= 1.0
    ensures forall u: real | 0.0 <= u < 1.0 :: Returns(c, u, t) <==> lo <= u < lo + Prob(c, t)
  {
    hide Prob, Returns, Total, Falls, Draws;
    if i: nat :| i < |c| && c[i].tok == t {
      ListedProb(c, t, i);
      lo := ListedShare(c, t, i);
    } else {
      lo := 0.0;
      NeverReturned(c, t);
    }
  }

  lemma ListedProb(c: seq<Cand>, t: nat, i: nat)
    requires Proper(c) && i < |c| && c[i].tok == t
    ensures Prob(c, t) == c[i].w / Total(c)
  {
    assert forall j | 0 <= j < i :: c[j].tok != t;
  }

  lemma NeverReturned(c: seq<Cand>, t: nat)
    requires Proper(c) && forall i | 0 <= i < |c| :: c[i].tok != t
    ensures Prob(c, t) == 0.0 && forall u: real :: !Returns(c, u, t)
  {
  }

  lemma ListedShare(c: seq<Cand>, t: nat, i: nat) returns (lo: real)
    requires Proper(c) && i < |c| && c[i].tok == t
    ensures 0.0 <= lo && lo + c[i].w / Total(c) <= 1.0
    ensures forall u: real | 0.0 <= u < 1.0 :: Returns(c, u, t) <==> lo <= u < lo + c[i].w / Total(c)
  {
    hide Total, Draws;
    var mass, before, w := Total(c), Total(c[..i]), c[i].w;
    lo := before / mass;
    TotalStep(c, i);
    TotalGrows(c, i + 1, |c|);
    assert c[..|c|] == c;
    TotalGrows(c, 0, i);
    Share(before, w, mass);
    forall u: real | 0.0 <= u < 1.0 ensures Returns(c, u, t) <==> lo <= u < lo + w / mass {
      ReturnsWithin(c, t, i, u);
    }
  }

  lemma ReturnsWithin(c: seq<Cand>, t: nat, i: nat, u: real)
    requires Proper(c) && i < |c| && c[i].tok == t
    ensures Returns(c, u, t) <==> Total(c[..i]) / Total(c) <= u < Total(c[..i]) / Total(c) + c[i].w / Total(c)
  {
    hide Total, Draws, Proper;
    TotalPositive(c);
    Scaled(Total(c[..i]), c[i].w, Total(c), u);
    OneShare(c, u * Total(c), t, i);
  }

  lemma TotalPositive(c: seq<Cand>)
    requires Proper(c)
    ensures Total(c) > 0.0
  {
  }

  lemma OneShare(c: seq<Cand>, r: real, t: nat, i: nat)
    requires Proper(c) && i < |c| && c[i].tok == t
    ensures Draws(c, r, t) <==> Falls(c, r, i)
  {
    if j: nat :| Falls(c, r, j) && c[j].tok == t {
      assert j == i;
    }
  }

  lemma Share(before: real, w: real, mass: real)
    requires 0.0 <= before && 0.0 <= w && before + w <= mass && mass > 0.0
    ensures 0.0 <= before / mass && before / mass + w / mass <= 1.0
  {
    assert before / mass + w / mass == (before + w) / mass;
    assert mass / mass == 1.0;
  }

  lemma Scaled(before: real, w: real, mass: real, u: real)
    requires mass > 0.0
    ensures before <= u * mass < before + w <==> before / mass <= u < before / mass + w / mass
  {
    assert before / mass * mass == before && w / mass * mass == w;
    assert (before / mass + w / mass) * mass == before + w;
    OrderScales(before / mass, u, mass);
    OrderScales(u, before / mass + w / mass, mass);
  }

  lemma OrderScales(x: real, y: real, mass: real)
    requires mass > 0.0
    ensures x <= y <==> x * mass <= y * mass
    ensures x < y <==> x * mass < y * mass
  {
    assert (y - x) * mass == y * mass - x * mass;
  }

  // ----- the dense path ----------------------------------------------------------------

  /** The weights at or above the threshold, by token. */
  function Eligible(val: nat -> real, w: seq<nat>, thr: nat): seq<Cand> {
    if w == [] then []
    else
      var n := |w| - 1;
      Eligible(val, w[..n], thr) + if w[n] >= thr then [Cand(n, val(w[n]))] else []
  }

  lemma {:induction false} EligibleTotal(val: nat -> real, w: seq<nat>, thr: nat)
    ensures Total(Eligible(val, w, thr)) == Mass(val, w, thr)
    ensures forall i | 0 <= i < |Eligible(val, w, thr)| :: Eligible(val, w, thr)[i].tok < |w|
  {
    if w != [] {
      var n := |w| - 1;
      var init := Eligible(val, w[..n], thr);
      EligibleTotal(val, w[..n], thr);
      if w[n] >= thr {
        assert (init + [Cand(n, val(w[n]))])[..|init|] == init;
      } else {
        assert init + [] == init;
      }
    }
  }

  lemma {:induction false} EligibleProper(val: nat -> real, w: seq<nat>, thr: nat)
    requires Increasing(val)
    ensures var c := Eligible(val, w, thr);
      (forall i | 0 <= i < |c| :: c[i].w >= 0.0) && forall i, j | 0 <= i < j < |c| :: c[i].tok < c[j].tok
  {
    if w != [] {
      var n := |w| - 1;
      EligibleProper(val, w[..n], thr);
      EligibleTotal(val, w[..n], thr);
      NotNegative(val, w[n]);
    }
  }

  /** Where an eligible token stands among the candidates. */
  lemma {:induction false} EligibleAt(val: nat -> real, w: seq<nat>, thr: nat, t: nat)
    requires t < |w| && w[t] >= thr
    ensures var c, i := Eligible(val, w, thr), |Eligible(val, w[..t], thr)|;
      i < |c| && c[i] == Cand(t, val(w[t])) && c[..i] == Eligible(val, w[..t], thr)
  {
    var n := |w| - 1;
    if t < n {
      EligibleAt(val, w[..n], thr, t);
      assert w[..n][..t] == w[..t];
    }
  }

  lemma HitsAreDraws(val: nat -> real, w: seq<nat>, thr: nat, r: real, t: nat)
    requires Hits(val, w, thr, r, t)
    ensures Draws(Eligible(val, w, thr), r, t)
  {
    hide Eligible, Total, Mass;
    EligibleAt(val, w, thr, t);
    EligibleTotal(val, w[..t], thr);
    assert Falls(Eligible(val, w, thr), r, |Eligible(val, w[..t], thr)|);
  }

  ghost predicate IsMax(keys: seq<int>, mx: int) {
    mx in keys && forall i | 0 <= i < |keys| :: keys[i] <= mx
  }

  function Weights(env: Env, keys: seq<int>, mx: int): (w: seq<nat>)
    ensures |w| == |keys| && forall i | 0 <= i < |keys| :: w[i] == env.weight(keys[i], mx)
  {
    seq(|keys|, i requires 0 <= i < |keys| => env.weight(keys[i], mx))
  }

  function Target(env: Env, p: Params, z: real): real {
    RealMax(RealMax(p.topP, 0.0) * z, env.tiny)
  }

  /** The top-p threshold: the only one there is. */
  ghost function TopP(env: Env, p: Params, w: seq<nat>): nat {
    if p.topP < 1.0 then
      if t: nat :| IsThreshold(env.val, w, Target(env, p, Mass(env.val, w, 0)), t) then t else 0
    else 0
  }

  function MinP(env: Env, p: Params): nat {
    Min(p.minP, env.one)
  }

  ghost function Threshold(env: Env, p: Params, w: seq<nat>): nat {
    if TopP(env, p, w) < MinP(env, p) then MinP(env, p) else TopP(env, p, w)
  }

  lemma {:induction false} MassReaches(val: nat -> real, w: seq<nat>, t: nat, i: nat)
    requires Increasing(val) && i < |w| && w[i] >= t
    ensures Mass(val, w, t) >= val(w[i])
  {
    MassStep(val, w, t, i);
    WholeIsMore(val, w, t, i + 1);
    MassFalls(val, w[..i], t, t);
  }

  /** The largest weight is one, so the target is within reach. */
  lemma TargetInReach(env: Env, p: Params, keys: seq<int>, mx: int)
    requires EnvOk(env) && IsMax(keys, mx)
    ensures var w := Weights(env, keys, mx);
      (forall i | 0 <= i < |w| :: w[i] <= env.one) && Mass(env.val, w, 0) >= 1.0 &&
      (p.topP < 1.0 ==> 0.0 < Target(env, p, Mass(env.val, w, 0)) <= Mass(env.val, w, 0))
  {
    hide Mass, Target;
    var w := Weights(env, keys, mx);
    var i :| 0 <= i < |keys| && keys[i] == mx;
    MassReaches(env.val, w, 0, i);
    if p.topP < 1.0 {
      TargetWithin(env, p, Mass(env.val, w, 0));
    }
  }

  lemma TargetWithin(env: Env, p: Params, z: real)
    requires p.topP < 1.0 <= z && 0.0 < env.tiny <= 1.0
    ensures 0.0 < Target(env, p, z) <= z
  {
    var x := RealMax(p.topP, 0.0);
    var y := x * z;
    assert 0.0 <= x <= 1.0;
    Fraction(x, z);
    assert y <= z && Target(env, p, z) == RealMax(y, env.tiny);
  }

  lemma Fraction(x: real, z: real)
    requires 0.0 <= x <= 1.0 && z >= 0.0
    ensures x * z <= z
  {
  }

  /** The dense threshold, as the source computes it. */
  method DenseThreshold(env: Env, p: Params, keys: seq<int>, mx: int) returns (w: seq<nat>, thr: nat)
    requires EnvOk(env) && IsMax(keys, mx)
    ensures w == Weights(env, keys, mx) && thr == Threshold(env, p, w)
  {
    hide Mass, IsThreshold, EnvOk;
    w := Weights(env, keys, mx);
    TargetInReach(env, p, keys, mx);
    EnvIncreasing(env);
    var z, _ := MaskedSum(env.val, w, 0);
    thr := 0;
    if p.topP < 1.0 {
      thr := TopPThreshold(env.val, w, Target(env, p, z), env.hint(w, z), env.one);
      OnlyOne(env, p, w, thr);
    }
    var minP := MinP(env, p);
    if minP > 0 && thr < minP {
      thr := minP;
    }
  }

  lemma EnvIncreasing(env: Env)
    requires EnvOk(env)
    ensures Increasing(env.val)
  {
  }

  lemma OnlyOne(env: Env, p: Params, w: seq<nat>, thr: nat)
    requires IsThreshold(env.val, w, Target(env, p, Mass(env.val, w, 0)), thr) && p.topP < 1.0
    ensures TopP(env, p, w) == thr
  {
    hide Mass, IsThreshold;
    OnlyThreshold(env.val, w, Target(env, p, Mass(env.val, w, 0)), TopP(env, p, w), thr);
  }

  /** Something always survives. */
  lemma DenseProper(env: Env, p: Params, keys: seq<int>, mx: int)
    requires EnvOk(env) && IsMax(keys, mx)
    ensures var w := Weights(env, keys, mx); Proper(Eligible(env.val, w, Threshold(env, p, w)))
  {
    hide Mass, Eligible, Total;
    var w := Weights(env, keys, mx);
    var thr := Threshold(env, p, w);
    EligibleProper(env.val, w, thr);
    EligibleTotal(env.val, w, thr);
    TopPWithinOne(env, p, keys, mx);
    var i :| 0 <= i < |keys| && keys[i] == mx;
    MassReaches(env.val, w, thr, i);
  }

  lemma TopPWithinOne(env: Env, p: Params, keys: seq<int>, mx: int)
    requires EnvOk(env) && IsMax(keys, mx)
    ensures TopP(env, p, Weights(env, keys, mx)) <= env.one
  {
    hide Mass;
    var w := Weights(env, keys, mx);
    TargetInReach(env, p, keys, mx);
    if p.topP < 1.0 {
      if t: nat :| IsThreshold(env.val, w, Target(env, p, Mass(env.val, w, 0)), t) {
        OnlyOne(env, p, w, t);
        if env.one < t {
          NothingAbove(env.val, w, t);
        }
      }
    }
  }

  // ----- the list path ---------------------------------------------------------------------

  function Weigh(env: Env, sorted: seq<Entry>, mx: int): (r: seq<Cand>)
    ensures |r| == |sorted|
    ensures forall i | 0 <= i < |sorted| :: r[i] == Cand(sorted[i].tok, env.val(env.weight(sorted[i].key, mx)))
  {
    seq(|sorted|, i requires 0 <= i < |sorted| => Cand(sorted[i].tok, env.val(env.weight(sorted[i].key, mx))))
  }

  /** The shortest prefix of at least `n` candidates reaching the target. */
  function FirstReach(c: seq<Cand>, target: real, n: nat): (r: nat)
    requires 0 < n <= |c|
    ensures n <= r <= |c|
    ensures r < |c| ==> Total(c[..r]) >= target
    ensures forall m | n <= m < r :: Total(c[..m]) < target
    decreases |c| - n
  {
    if Total(c[..n]) >= target || n == |c| then n else FirstReach(c, target, n + 1)
  }

  /** Drop trailing candidates below the cut-off; the first always stays. */
  function DropBelow(c: seq<Cand>, n: nat, cut: real): (r: nat)
    requires 0 < n <= |c|
    ensures 0 < r <= n && (r > 1 ==> c[r - 1].w >= cut)
    ensures forall m | r <= m < n :: c[m].w < cut
  {
    if n > 1 && c[n - 1].w < cut then DropBelow(c, n - 1, cut) else n
  }

  function Cut(env: Env, p: Params, c: seq<Cand>): (n: nat)
    requires c != []
    ensures 0 < n <= |c|
  {
    var n := if p.topP < 1.0 then FirstReach(c, Target(env, p, Total(c)), 1) else |c|;
    if MinP(env, p) > 0 then DropBelow(c, n, env.val(MinP(env, p))) else n
  }

  /** Up to this many candidates go through the bounded buffer. */
  const BUFFERED: nat := 256

  /** The `k` largest logits with their tokens. */
  function Kept(env: Env, keys: seq<int>, k: nat): seq<Entry>
    requires 0 < k < |keys|
  {
    if k <= BUFFERED then Best(keys, |keys|, k) else env.select(keys, k)
  }

  lemma KeptIsSelected(env: Env, keys: seq<int>, k: nat)
    requires EnvOk(env) && 0 < k < |keys|
    ensures Selects(keys, k, Kept(env, keys, k)) && |env.sort(Kept(env, keys, k))| == k
  {
    hide Best, Selects, KBest, Increasing;
    SortKeepsSize(env);
    if k <= BUFFERED {
      BestIsKBest(keys, |keys|, k);
      KBestSelects(keys, k, Best(keys, |keys|, k));
    }
    SizeOfSelected(keys, k, Kept(env, keys, k));
  }

  lemma SizeOfSelected(keys: seq<int>, k: nat, b: seq<Entry>)
    requires Selects(keys, k, b)
    ensures |b| == k
  {
  }

  /** The `k` best by weight, cut by top-p and min-p. */
  ghost function Listed(env: Env, p: Params, keys: seq<int>, mx: int): seq<Cand>
    requires EnvOk(env) && 0 < p.topK < |keys|
  {
    KeptIsSelected(env, keys, p.topK);
    var c := Weigh(env, env.sort(Kept(env, keys, p.topK)), mx);
    c[..Cut(env, p, c)]
  }

  lemma SortKeepsSize(env: Env)
    requires EnvOk(env)
    ensures forall b :: |env.sort(b)| == |b|
  {
    forall b ensures |env.sort(b)| == |b| {
      assert SortedBy(env.sort(b), b);
      assert |multiset(env.sort(b))| == |multiset(b)|;
    }
  }

  /** One maximum of all logits is kept, and sorted to the front. */
  lemma FrontIsMax(env: Env, keys: seq<int>, k: nat, mx: int)
    requires EnvOk(env) && IsMax(keys, mx) && 0 < k < |keys|
    ensures var s := env.sort(Kept(env, keys, k)); s != [] && s[0].key == mx
  {
    hide Kept, Increasing, Selects;
    KeptIsSelected(env, keys, k);
    var b := Kept(env, keys, k);
    var s := env.sort(b);
    var e := MaxIsKept(keys, k, mx, b);
    assert SortedBy(s, b);
    assert e in multiset(b) && e in multiset(s);
    assert e in s;
    assert s[0] in multiset(s) && s[0] in b;
  }

  lemma MaxIsKept(keys: seq<int>, k: nat, mx: int, b: seq<Entry>) returns (e: Entry)
    requires IsMax(keys, mx) && Selects(keys, k, b) && k > 0
    ensures e in b && e.key == mx && forall x | x in b :: x.key <= mx
  {
    var t :| 0 <= t < |keys| && keys[t] == mx;
    e := b[0];
    if Holds(b, t) {
      var i :| 0 <= i < |b| && b[i].tok == t;
      e := b[i];
    }
  }

  /** Sorting keeps the tokens distinct. */
  lemma SortedDistinct(env: Env, keys: seq<int>, k: nat, i: nat, j: nat)
    requires EnvOk(env) && 0 < k < |keys| && i < j < |env.sort(Kept(env, keys, k))|
    ensures env.sort(Kept(env, keys, k))[i].tok != env.sort(Kept(env, keys, k))[j].tok
  {
    hide Kept, Increasing, Selects;
    KeptIsSelected(env, keys, k);
    var b := Kept(env, keys, k);
    var s := env.sort(b);
    assert SortedBy(s, b);
    assert s[i] in multiset(s) && s[j] in multiset(s);
    assert s[i] in b && s[j] in b;
    Once(keys, k, b, s[i]);
    TwiceCounted(s, i, j);
    SameTokSameEntry(keys, k, b, s[i], s[j]);
  }

  lemma SameTokSameEntry(keys: seq<int>, k: nat, b: seq<Entry>, x: Entry, y: Entry)
    requires Selects(keys, k, b) && x in b && y in b
    ensures x.tok == y.tok ==> x == y
  {
  }

  lemma TwiceCounted(s: seq<Entry>, i: nat, j: nat)
    requires i < j < |s|
    ensures s[i] == s[j] ==> multiset(s)[s[i]] >= 2
  {
    assert s == s[..j] + s[j..];
    assert s[..j][i] in multiset(s[..j]) && s[j..][0] in multiset(s[j..]);
  }

  lemma {:induction false} Once(keys: seq<int>, k: nat, b: seq<Entry>, e: Entry)
    requires Selects(keys, k, b) && e in b
    ensures multiset(b)[e] == 1
  {
    var i :| 0 <= i < |b| && b[i] == e;
    assert b == b[..i] + [b[i]] + b[i + 1..];
    assert e !in b[..i] && e !in b[i + 1..];
  }

  lemma ListedProper(env: Env, p: Params, keys: seq<int>, mx: int)
    requires EnvOk(env) && IsMax(keys, mx) && 0 < p.topK < |keys|
    ensures Proper(Listed(env, p, keys, mx))
  {
    hide Kept, Selects, Increasing, Cut, Total;
    FrontIsMax(env, keys, p.topK, mx);
    var s := env.sort(Kept(env, keys, p.topK));
    var c := Listed(env, p, keys, mx);
    forall i, j | 0 <= i < j < |c| ensures c[i].tok != c[j].tok {
      SortedDistinct(env, keys, p.topK, i, j);
    }
    EnvIncreasing(env);
    forall i | 0 <= i < |c| ensures c[i].w >= 0.0 {
      NotNegative(env.val, env.weight(s[i].key, mx));
    }
    FirstCounts(c);
  }

  lemma FirstCounts(c: seq<Cand>)
    requires c != [] && c[0].w > 0.0 && forall i | 0 <= i < |c| :: c[i].w >= 0.0
    ensures Total(c) > 0.0
  {
    TotalStep(c, 0);
    TotalGrows(c, 1, |c|);
    assert c[..|c|] == c && Total(c[..0]) == 0.0;
  }

  // ----- what may be drawn --------------------------------------------------------------------

  function MaxKey(keys: seq<int>): (mx: int)
    requires keys != []
    ensures IsMax(keys, mx)
  {
    if |keys| == 1 then keys[0]
    else
      var m := MaxKey(keys[..|keys| - 1]);
      if keys[|keys| - 1] > m then keys[|keys| - 1] else m
  }

  function FirstAt(keys: seq<int>, k: int): (i: nat)
    requires k in keys
    ensures i < |keys| && keys[i] == k && k !in keys[..i]
  {
    if keys[0] == k then 0
    else
      assert keys[1..][..FirstAt(keys[1..], k)] == keys[1..1 + FirstAt(keys[1..], k)];
      assert keys[..1 + FirstAt(keys[1..], k)] == [keys[0]] + keys[1..1 + FirstAt(keys[1..], k)];
      1 + FirstAt(keys[1..], k)
  }

  /** The candidates, or nothing if no logit is above minus infinity. */
  ghost function Cands(env: Env, p: Params, keys: seq<int>): Option<seq<Cand>>
    requires EnvOk(env)
  {
    if keys == [] || MaxKey(keys) == env.low then None
    else if p.greedy then Some([Cand(FirstAt(keys, MaxKey(keys)), 1.0)])
    else if 0 < p.topK < |keys| then Some(Listed(env, p, keys, MaxKey(keys)))
    else
      var w := Weights(env, keys, MaxKey(keys));
      Some(Eligible(env.val, w, Threshold(env, p, w)))
  }

  lemma CandsProper(env: Env, p: Params, keys: seq<int>)
    requires EnvOk(env)
    ensures Cands(env, p, keys).Some? ==> Proper(Cands(env, p, keys).value)
  {
    hide Eligible, Listed, Threshold, EnvOk;
    if Cands(env, p, keys).Some? {
      var mx := MaxKey(keys);
      if p.greedy {
        OneCand(FirstAt(keys, mx));
      } else if 0 < p.topK < |keys| {
        ListedProper(env, p, keys, mx);
      } else {
        DenseProper(env, p, keys, mx);
      }
    }
  }

  // ----- how much of the mass is kept ---------------------------------------------------------

  /** `mass` is the share of `z` that top-p asks for. */
  ghost predicate Suffices(p: Params, z: real, mass: real) {
    mass >= p.topP * z && mass >= 0.0
  }

  /** `mass` is less than that, or less than the smallest target. */
  ghost predicate Lacks(env: Env, p: Params, z: real, mass: real) {
    mass < p.topP * z || mass < env.tiny
  }

  lemma TargetMeans(env: Env, p: Params, z: real, mass: real)
    requires z >= 0.0 && 0.0 < env.tiny
    ensures mass >= Target(env, p, z) ==> Suffices(p, z, mass)
    ensures 0.0 <= mass < Target(env, p, z) ==> Lacks(env, p, z, mass)
  {
    if p.topP <= 0.0 {
      NegativeShare(p.topP, z);
    }
  }

  lemma NegativeShare(x: real, z: real)
    requires x <= 0.0 && z >= 0.0
    ensures x * z <= 0.0
  {
  }

  /** The candidates of the list path before any cut, heaviest first. */
  ghost function Uncut(env: Env, p: Params, keys: seq<int>): seq<Cand>
    requires EnvOk(env) && keys != [] && 0 < p.topK < |keys|
  {
    Weigh(env, env.sort(Kept(env, keys, p.topK)), MaxKey(keys))
  }

  /** Of the list, top-p keeps the shortest part that has the share asked for. */
  lemma ListKeepsShare(env: Env, p: Params, keys: seq<int>)
    requires EnvOk(env) && keys != [] && 0 < p.topK < |keys| && p.topP < 1.0 && p.minP == 0
    ensures var all, c := Uncut(env, p, keys), Listed(env, p, keys, MaxKey(keys));
      c != [] && c <= all && Suffices(p, Total(all), Total(c)) && Lacks(env, p, Total(all), Total(c[..|c| - 1]))
  {
    hide Target, Total, Kept, Increasing;
    var all := Uncut(env, p, keys);
    KeptIsSelected(env, keys, p.topK);
    ListedWeights(env, p, keys);
    var z := Total(all);
    var n := FirstReach(all, Target(env, p, z), 1);
    var c := all[..n];
    assert Listed(env, p, keys, MaxKey(keys)) == c;
    assert all[..|all|] == all;
    TargetWithin(env, p, z);
    TotalGrows(all, n - 1, n);
    TargetMeans(env, p, z, Total(c));
    TargetMeans(env, p, z, Total(all[..n - 1]));
    EmptyTotal();
    assert c[..n - 1] == all[..n - 1];
  }

  lemma ListedWeights(env: Env, p: Params, keys: seq<int>)
    requires EnvOk(env) && keys != [] && 0 < p.topK < |keys|
    ensures var all := Uncut(env, p, keys);
      |all| == p.topK && (forall i | 0 <= i < |all| :: all[i].w >= 0.0) && Total(all) >= 1.0
  {
    hide Kept, Total, Increasing, Selects;
    KeptIsSelected(env, keys, p.topK);
    FrontIsMax(env, keys, p.topK, MaxKey(keys));
    EnvIncreasing(env);
    var s, all := env.sort(Kept(env, keys, p.topK)), Uncut(env, p, keys);
    forall i | 0 <= i < |all| ensures all[i].w >= 0.0 {
      NotNegative(env.val, env.weight(s[i].key, MaxKey(keys)));
    }
    TotalStep(all, 0);
    EmptyTotal();
    TotalGrows(all, 1, |all|);
    assert all[..|all|] == all && all[..0] == [];
  }

  /** Of the dense weights, top-p keeps those at or above a weight: they have the
      share asked for, and without the lightest of them they do not. */
  lemma DenseKeepsShare(env: Env, p: Params, keys: seq<int>) returns (thr: nat)
    requires EnvOk(env) && keys != [] && !(0 < p.topK < |keys|) && p.topP < 1.0 && p.minP == 0
    ensures var w := Weights(env, keys, MaxKey(keys));
      var z, c := Mass(env.val, w, 0), Eligible(env.val, w, Threshold(env, p, w));
      c == Eligible(env.val, w, thr) && thr in w && Suffices(p, z, Total(c)) &&
      Lacks(env, p, z, Total(Eligible(env.val, w, thr + 1)))
  {
    hide Target, Total, Eligible, Mass, Increasing, IsThreshold;
    var mx := MaxKey(keys);
    var w := Weights(env, keys, mx);
    EnvIncreasing(env);
    TargetInReach(env, p, keys, mx);
    thr := TopP(env, p, w);
    TopPIsThreshold(env, p, keys);
    ThresholdMass(env.val, w, Target(env, p, Mass(env.val, w, 0)), thr);
    EligibleTotal(env.val, w, thr);
    EligibleTotal(env.val, w, thr + 1);
    MassFalls(env.val, w, thr, thr + 1);
    TargetMeans(env, p, Mass(env.val, w, 0), Mass(env.val, w, thr));
    TargetMeans(env, p, Mass(env.val, w, 0), Mass(env.val, w, thr + 1));
  }

  lemma TopPIsThreshold(env: Env, p: Params, keys: seq<int>)
    requires EnvOk(env) && keys != [] && p.topP < 1.0
    ensures var w := Weights(env, keys, MaxKey(keys));
      IsThreshold(env.val, w, Target(env, p, Mass(env.val, w, 0)), TopP(env, p, w))
  {
    hide Target, Mass, IsThreshold, Increasing;
    var mx := MaxKey(keys);
    var w := Weights(env, keys, mx);
    TargetInReach(env, p, keys, mx);
    EnvIncreasing(env);
    var t := ThresholdExists(env.val, w, Target(env, p, Mass(env.val, w, 0)), 0, env.one);
  }

  lemma ThresholdExists(val: nat -> real, w: seq<nat>, target: real, from: nat, one: nat) returns (t: nat)
    requires Mass(val, w, from) >= target > 0.0 && forall i | 0 <= i < |w| :: w[i] <= one
    ensures IsThreshold(val, w, target, t)
    decreases if one < from then 0 else one - from
  {
    hide Mass;
    t := from;
    if t' :| t' > from && Mass(val, w, t') >= target {
      if t' > one {
        NothingAbove(val, w, t');
      }
      t := ThresholdExists(val, w, target, t', one);
    }
  }

  /** What a threshold keeps, and that it is one of the weights. */
  lemma ThresholdMass(val: nat -> real, w: seq<nat>, target: real, thr: nat)
    requires Increasing(val) && IsThreshold(val, w, target, thr) && target > 0.0
    ensures Mass(val, w, thr) >= target > Mass(val, w, thr + 1) && thr in w
  {
    hide Increasing;
    if thr !in w {
      SameAbove(val, w, thr);
    }
  }

  lemma {:induction false} SameAbove(val: nat -> real, w: seq<nat>, thr: nat)
    requires thr !in w
    ensures Mass(val, w, thr) == Mass(val, w, thr + 1)
  {
    if w != [] {
      SameAbove(val, w[..|w| - 1], thr);
    }
  }

  /** Min-p keeps a weight that is at least the cut-off, or one. */
  ghost predicate Heavy(env: Env, p: Params, w: real) {
    w >= env.val(p.minP) || w >= 1.0
  }

  lemma HeavyMeans(env: Env, p: Params, b: nat)
    requires EnvOk(env)
    ensures b >= MinP(env, p) <==> Heavy(env, p, env.val(b))
    ensures env.val(b) >= env.val(MinP(env, p)) <==> Heavy(env, p, env.val(b))
  {
    var m := MinP(env, p);
    assert b < m ==> env.val(b) < env.val(m);
    assert m < b ==> env.val(m) < env.val(b);
    assert p.minP < env.one ==> env.val(p.minP) < env.val(env.one);
    assert env.one < p.minP ==> env.val(env.one) < env.val(p.minP);
  }

  ghost predicate Listing(c: seq<Cand>, t: nat) {
    exists i :: 0 <= i < |c| && c[i].tok == t
  }

  lemma {:induction false} EligibleOnly(val: nat -> real, w: seq<nat>, thr: nat, t: nat)
    ensures Listing(Eligible(val, w, thr), t) <==> t < |w| && w[t] >= thr
  {
    hide Eligible;
    if t < |w| {
      if w[t] >= thr {
        EligibleAt(val, w, thr, t);
      } else {
        NotEligible(val, w, thr, t);
      }
    } else {
      EligibleTotal(val, w, thr);
    }
  }

  lemma DenseMinP(env: Env, p: Params, w: seq<nat>, t: nat)
    requires EnvOk(env)
    ensures Listing(Eligible(env.val, w, Threshold(env, p, w)), t) <==>
      Listing(Eligible(env.val, w, Threshold(env, p.(minP := 0), w)), t) && t < |w| && Heavy(env, p, env.val(w[t]))
  {
    hide Eligible, EnvOk, TopP, Heavy, Listing;
    SameTopP(env, p, w);
    EligibleOnly(env.val, w, Threshold(env, p, w), t);
    EligibleOnly(env.val, w, Threshold(env, p.(minP := 0), w), t);
    if t < |w| {
      HeavyMeans(env, p, w[t]);
    }
  }

  /** On top of the other cuts min-p drops exactly the weights that are not heavy;
      of a list only from the end, and never the first. */
  lemma MinPCuts(env: Env, p: Params, keys: seq<int>)
    requires EnvOk(env) && keys != []
    ensures var c, c0 := Cands(env, p, keys), Cands(env, p.(minP := 0), keys);
      c.Some? && !p.greedy ==>
        c0.Some? &&
        if 0 < p.topK < |keys| then
          c.value <= c0.value && c.value != [] &&
          (forall i | |c.value| <= i < |c0.value| :: !Heavy(env, p, c0.value[i].w)) &&
          (|c.value| > 1 ==> Heavy(env, p, c.value[|c.value| - 1].w))
        else
          var w := Weights(env, keys, MaxKey(keys));
          forall t: nat :: Listing(c.value, t) <==> Listing(c0.value, t) && t < |w| && Heavy(env, p, env.val(w[t]))
  {
    hide Eligible, EnvOk, Threshold, Heavy, Listed, Listing;
    if Cands(env, p, keys).Some? && !p.greedy {
      if 0 < p.topK < |keys| {
        ListMinP(env, p, keys);
      } else {
        forall t: nat {
          DenseMinP(env, p, Weights(env, keys, MaxKey(keys)), t);
        }
      }
    }
  }

  lemma SameTopP(env: Env, p: Params, w: seq<nat>)
    ensures TopP(env, p, w) == TopP(env, p.(minP := 0), w)
  {
    if p.topP < 1.0 {
      var target := Target(env, p, Mass(env.val, w, 0));
      assert target == Target(env, p.(minP := 0), Mass(env.val, w, 0));
      if t: nat :| IsThreshold(env.val, w, target, t) {
        OnlyOne(env, p, w, t);
        OnlyOne(env, p.(minP := 0), w, t);
      }
    }
  }

  lemma CutMinP(env: Env, p: Params, all: seq<Cand>)
    requires all != []
    ensures var m, n, n0 := MinP(env, p), Cut(env, p, all), Cut(env, p.(minP := 0), all);
      0 < n <= n0 <= |all| && (m == 0 ==> n == n0) && (m > 0 && n > 1 ==> all[n - 1].w >= env.val(m)) &&
      forall i | n <= i < n0 :: all[i].w < env.val(m)
  {
    hide Total, FirstReach, Target;
    SameTarget(env, p, Total(all));
  }

  lemma SameTarget(env: Env, p: Params, z: real)
    ensures Target(env, p, z) == Target(env, p.(minP := 0), z)
  {
  }

  lemma ListMinP(env: Env, p: Params, keys: seq<int>)
    requires EnvOk(env) && 0 < p.topK < |keys|
    ensures var c, c0 := Listed(env, p, keys, MaxKey(keys)), Listed(env, p.(minP := 0), keys, MaxKey(keys));
      c <= c0 && c != [] && (forall i | |c| <= i < |c0| :: !Heavy(env, p, c0[i].w)) &&
      (|c| > 1 ==> Heavy(env, p, c[|c| - 1].w))
  {
    hide Kept, Cut, Heavy, Selects, Increasing;
    KeptIsSelected(env, keys, p.topK);
    var s, all := env.sort(Kept(env, keys, p.topK)), Uncut(env, p, keys);
    CutMinP(env, p, all);
    var n, n0 := Cut(env, p, all), Cut(env, p.(minP := 0), all);
    assert all[..n] <= all[..n0];
    forall i: nat | i < |all|
      ensures all[i].w >= env.val(MinP(env, p)) <==> Heavy(env, p, all[i].w)
      ensures MinP(env, p) == 0 ==> Heavy(env, p, all[i].w)
    {
      HeavyMeans(env, p, env.weight(s[i].key, MaxKey(keys)));
    }
  }

  lemma OneCand(t: nat)
    ensures Proper([Cand(t, 1.0)]) && Total([Cand(t, 1.0)]) == 1.0
  {
    var c := [Cand(t, 1.0)];
    assert c[..0] == [];
  }

  method SumOf(c: seq<Cand>) returns (z: real)
    ensures z == Total(c)
  {
    z := 0.0;
    for i := 0 to |c|
      invariant z == Total(c[..i])
    {
      TotalStep(c, i);
      z := z + c[i].w;
    }
    assert c[..|c|] == c;
  }

  /** The best `k` entries, by bounded buffer or by partition. */
  method TopEntries(env: Env, keys: seq<int>, k: nat) returns (topk: seq<Entry>)
    requires EnvOk(env) && 0 < k < |keys|
    ensures topk == Kept(env, keys, k)
  {
    hide EnvOk;
    if k <= BUFFERED {
      topk := SelectTopK(keys, k);
    } else {
      topk := env.select(keys, k);
    }
  }

  /** The candidate list with its cut-offs. */
  method Shortlist(env: Env, p: Params, keys: seq<int>, mx: int) returns (kept: seq<Cand>)
    requires EnvOk(env) && 0 < p.topK < |keys|
    ensures kept == Listed(env, p, keys, mx)
  {
    hide Total, Best, KBest, EnvOk, Selects;
    KeptIsSelected(env, keys, p.topK);
    var topk := TopEntries(env, keys, p.topK);
    var c := Weigh(env, env.sort(topk), mx);
    var z := SumOf(c);
    var n := |c|;
    if p.topP < 1.0 {
      n := ReachTarget(c, Target(env, p, z));
    }
    var minP := MinP(env, p);
    if minP > 0 {
      var full := n;
      while n > 1 && c[n - 1].w < env.val(minP)
        invariant 0 < n <= full <= |c| && DropBelow(c, n, env.val(minP)) == DropBelow(c, full, env.val(minP))
        decreases n
      {
        n := n - 1;
      }
    }
    kept := c[..n];
  }

  method ReachTarget(c: seq<Cand>, target: real) returns (n: nat)
    requires c != []
    ensures n == FirstReach(c, target, 1)
  {
    hide Total;
    n := |c|;
    var acc := 0.0;
    EmptyTotal();
    for i := 0 to |c|
      invariant acc == Total(c[..i]) && n == |c|
      invariant i < |c| ==> FirstReach(c, target, i + 1) == FirstReach(c, target, 1)
      invariant i == |c| ==> FirstReach(c, target, 1) == |c|
    {
      TotalStep(c, i);
      acc := acc + c[i].w;
      if acc >= target {
        return i + 1;
      }
    }
  }

  lemma EmptyTotal()
    ensures Total([]) == 0.0
  {
  }

  method ArgMax(env: Env, keys: seq<int>) returns (t: Option<nat>)
    requires keys != []
    ensures t == if MaxKey(keys) == env.low then None else Some(FirstAt(keys, MaxKey(keys)))
  {
    var mx := MaxOf(keys);
    assert mx == MaxKey(keys);
    if mx == env.low {
      return None;
    }
    t := Some(FirstAt(keys, mx));
  }

  /** One token for the uniform draw `u`. `keys`: the logits after penalties and
      temperature. */
  method Sample(env: Env, p: Params, keys: seq<int>, u: real) returns (t: Option<nat>)
    requires EnvOk(env) && 0.0 <= u < 1.0
    ensures t.Some? <==> Cands(env, p, keys).Some?
    ensures t.Some? ==> Returns(Cands(env, p, keys).value, u, t.value)
  {
    hide Best, Eligible, Total, Threshold, Listed, EnvOk, Mass;
    if keys == [] {
      return None;
    }
    CandsProper(env, p, keys);
    t := ArgMax(env, keys);
    if t.None? {
      return None;
    }
    if p.greedy {
      GreedyReturns(t.value, u);
      return t;
    }
    var mx := MaxOf(keys);
    assert mx == MaxKey(keys);
    if 0 < p.topK < |keys| {
      var kept := Shortlist(env, p, keys, mx);
      var tok := ScanList(kept, u);
      return Some(tok);
    }
    var tok := DrawDense(env, p, keys, mx, u);
    return Some(tok);
  }

  lemma GreedyReturns(t: nat, u: real)
    requires 0.0 <= u < 1.0
    ensures Returns([Cand(t, 1.0)], u, t)
  {
    OneCand(t);
    var c := [Cand(t, 1.0)];
    assert c[..0] == [];
    assert Falls(c, u * Total(c), 0);
  }

  lemma DrawnBelow(c: seq<Cand>, u: real, mass: real)
    requires Proper(c) && 0.0 <= u < 1.0 && mass == Total(c)
    ensures c != [] && 0.0 <= u * mass < mass
  {
    OrderScales(u, 1.0, mass);
    OrderScales(0.0, u, mass);
  }

  lemma ReturnsAt(c: seq<Cand>, u: real, mass: real, r: real, t: nat)
    requires mass == Total(c) && r == u * mass && Draws(c, r, t)
    ensures Returns(c, u, t)
  {
    hide Draws, Total;
    assert r == u * Total(c);
  }

  /** Inverse CDF over the list. */
  method ScanList(kept: seq<Cand>, u: real) returns (t: nat)
    requires Proper(kept) && 0.0 <= u < 1.0
    ensures Returns(kept, u, t)
  {
    hide Total, Proper;
    EmptyTotal();
    var mass := SumOf(kept);
    DrawnBelow(kept, u, mass);
    var r := u * mass;
    assert kept[..0] == [];
    var acc, i := 0.0, 0;
    while i + 1 < |kept| && r >= acc + kept[i].w
      invariant i < |kept| && acc == Total(kept[..i]) <= r < mass == Total(kept)
      decreases |kept| - i
    {
      TotalStep(kept, i);
      acc, i := acc + kept[i].w, i + 1;
    }
    TotalStep(kept, i);
    assert kept[..|kept|] == kept;
    assert Falls(kept, r, i);
    assert Draws(kept, r, kept[i].tok);
    ReturnsAt(kept, u, mass, r, kept[i].tok);
    return kept[i].tok;
  }

  method DrawDense(env: Env, p: Params, keys: seq<int>, mx: int, u: real) returns (t: nat)
    requires EnvOk(env) && IsMax(keys, mx) && 0.0 <= u < 1.0
    ensures var w := Weights(env, keys, mx); Returns(Eligible(env.val, w, Threshold(env, p, w)), u, t)
  {
    hide Eligible, Total, Threshold, EnvOk, Mass, Proper, Returns;
    var w, thr := DenseThreshold(env, p, keys, mx);
    DenseProper(env, p, keys, mx);
    EligibleTotal(env.val, w, thr);
    EnvIncreasing(env);
    var mass, _ := MaskedSum(env.val, w, thr);
    t := ScanShares(env.val, w, thr, mass, u);
  }

  /** Inverse CDF over the weights at or above the threshold. */
  method ScanShares(val: nat -> real, w: seq<nat>, thr: nat, mass: real, u: real) returns (t: nat)
    requires Increasing(val) && Proper(Eligible(val, w, thr)) && 0.0 <= u < 1.0
    requires mass == Total(Eligible(val, w, thr)) == Mass(val, w, thr)
    ensures Returns(Eligible(val, w, thr), u, t)
  {
    hide Eligible, Total, Mass, Hits, Draws, Proper;
    DrawnBelow(Eligible(val, w, thr), u, mass);
    var r := u * mass;
    assert r < Mass(val, w, thr);
    var res := ScanDense(val, w, thr, r);
    t := res.value;
    HitsAreDraws(val, w, thr, r, t);
    ReturnsAt(Eligible(val, w, thr), u, mass, r, t);
  }

  lemma WeightsProper(val: nat -> real, w: seq<nat>)
    requires Increasing(val) && Mass(val, w, 0) > 0.0
    ensures Proper(Eligible(val, w, 0)) && Total(Eligible(val, w, 0)) == Mass(val, w, 0)
  {
    hide Eligible, Total, Mass;
    EligibleProper(val, w, 0);
    EligibleTotal(val, w, 0);
  }

  /** One draw from weights of any sum. */
  method SampleWeights(val: nat -> real, w: seq<nat>, u: real) returns (t: Option<nat>)
    requires Increasing(val) && 0.0 <= u < 1.0
    ensures t.Some? <==> Mass(val, w, 0) > 0.0
    ensures t.Some? ==> Proper(Eligible(val, w, 0)) && Returns(Eligible(val, w, 0), u, t.value)
  {
    hide Eligible, Total, Mass, Proper, Increasing, Returns;
    var mass, _ := MaskedSum(val, w, 0);
    if mass <= 0.0 {
      return None;
    }
    WeightsProper(val, w);
    var tok := ScanShares(val, w, 0, mass, u);
    return Some(tok);
  }

  /** The probabilities that `Sample` draws from. */
  method Distribution(env: Env, p: Params, keys: seq<int>) returns (probs: Option<seq<real>>)
    requires EnvOk(env)
    ensures probs.Some? <==> Cands(env, p, keys).Some?
    ensures probs.Some? ==> |probs.value| == |keys| && Proper(Cands(env, p, keys).value)
    ensures probs.Some? ==> forall t | 0 <= t < |keys| :: probs.value[t] == Prob(Cands(env, p, keys).value, t)
  {
    hide Best, Eligible, Total, Threshold, Listed, EnvOk, Prob, Proper;
    if keys == [] {
      return None;
    }
    CandsProper(env, p, keys);
    var top := ArgMax(env, keys);
    if top.None? {
      return None;
    }
    if p.greedy {
      var onehot := OneHot(top.value, |keys|);
      return Some(onehot);
    }
    var mx := MaxOf(keys);
    assert mx == MaxKey(keys);
    if 0 < p.topK < |keys| {
      var listed := ReportTopK(env, p, keys, mx);
      return Some(listed);
    }
    var dense := ReportDense(env, p, keys, mx);
    return Some(dense);
  }

  method OneHot(t: nat, n: nat) returns (probs: seq<real>)
    requires t < n
    ensures |probs| == n && Proper([Cand(t, 1.0)])
    ensures forall i | 0 <= i < n :: probs[i] == Prob([Cand(t, 1.0)], i)
  {
    probs := seq(n, i => if i == t then 1.0 else 0.0);
    OneCand(t);
    ListedProb([Cand(t, 1.0)], t, 0);
    forall i: nat | i < n && i != t ensures Prob([Cand(t, 1.0)], i) == 0.0 {
      NeverReturned([Cand(t, 1.0)], i);
    }
  }

  /** Scatter the list over the vocabulary. */
  method ReportList(kept: seq<Cand>, n: nat) returns (probs: seq<real>)
    requires Proper(kept)
    ensures |probs| == n && forall t | 0 <= t < n :: probs[t] == Prob(kept, t)
  {
    hide Total, Prob;
    var mass := SumOf(kept);
    probs := seq(n, t => 0.0);
    for i := 0 to |kept|
      invariant |probs| == n
      invariant forall t | 0 <= t < n && (forall j | 0 <= j < i :: kept[j].tok != t) :: probs[t] == 0.0
      invariant forall j | 0 <= j < i && kept[j].tok < n :: probs[kept[j].tok] == kept[j].w / mass
    {
      if kept[i].tok < n {
        probs := probs[kept[i].tok := kept[i].w / mass];
      }
    }
    forall t: nat | t < n ensures probs[t] == Prob(kept, t) {
      if i: nat :| i < |kept| && kept[i].tok == t {
        ListedProb(kept, t, i);
      } else {
        NeverReturned(kept, t);
      }
    }
  }

  /** The list path, which repeats the cut-offs of the sampler. */
  method ReportTopK(env: Env, p: Params, keys: seq<int>, mx: int) returns (probs: seq<real>)
    requires EnvOk(env) && 0 < p.topK < |keys| && Proper(Listed(env, p, keys, mx))
    ensures |probs| == |keys| && forall t | 0 <= t < |keys| :: probs[t] == Prob(Listed(env, p, keys, mx), t)
  {
    hide Total, Best, KBest, EnvOk, Selects, Prob, Proper, Target;
    KeptIsSelected(env, keys, p.topK);
    var topk := TopEntries(env, keys, p.topK);
    var c := Weigh(env, env.sort(topk), mx);
    var n := |c|;
    if p.topP < 1.0 {
      var z := SumOf(c);
      var target := Target(env, p, z);
      var acc := 0.0;
      EmptyTotal();
      for i := 0 to |c|
        invariant acc == Total(c[..i]) && n == |c|
        invariant if i < |c| then FirstReach(c, target, i + 1) == FirstReach(c, target, 1)
                  else FirstReach(c, target, 1) == |c|
      {
        TotalStep(c, i);
        acc := acc + c[i].w;
        if acc >= target {
          n := i + 1;
          assert n == FirstReach(c, target, 1);
          break;
        }
      }
      assert n == FirstReach(c, target, 1);
    }
    var cut := env.val(MinP(env, p));
    if MinP(env, p) > 0 {
      ghost var full := n;
      while n > 1 && c[n - 1].w < cut
        invariant 0 < n <= full <= |c| && DropBelow(c, n, cut) == DropBelow(c, full, cut)
      {
        n := n - 1;
      }
    }
    probs := ReportList(c[..n], |keys|);
  }

  method ReportDense(env: Env, p: Params, keys: seq<int>, mx: int) returns (probs: seq<real>)
    requires EnvOk(env) && IsMax(keys, mx)
    ensures var w := Weights(env, keys, mx);
      var c := Eligible(env.val, w, Threshold(env, p, w));
      Proper(c) && |probs| == |keys| && forall t | 0 <= t < |keys| :: probs[t] == Prob(c, t)
  {
    hide Eligible, Total, EnvOk, Mass, Prob, Proper, IsThreshold;
    var w := Weights(env, keys, mx);
    TargetInReach(env, p, keys, mx);
    EnvIncreasing(env);
    var thr := 0;
    if p.topP < 1.0 {
      var z, _ := MaskedSum(env.val, w, 0);
      thr := TopPThreshold(env.val, w, Target(env, p, z), env.hint(w, z), env.one);
      OnlyOne(env, p, w, thr);
    }
    if MinP(env, p) > 0 {
      thr := if thr < MinP(env, p) then MinP(env, p) else thr;
    }
    DenseProper(env, p, keys, mx);
    EligibleTotal(env.val, w, thr);
    var mass, _ := MaskedSum(env.val, w, thr);
    TotalPositive(Eligible(env.val, w, thr));
    probs := seq(|w|, t requires 0 <= t < |w| => if w[t] >= thr then env.val(w[t]) / mass else 0.0);
    forall t: nat | t < |w| ensures probs[t] == Prob(Eligible(env.val, w, thr), t) {
      DenseProb(env.val, w, thr, t);
    }
  }

  lemma DenseProb(val: nat -> real, w: seq<nat>, thr: nat, t: nat)
    requires Proper(Eligible(val, w, thr)) && t < |w|
    ensures Mass(val, w, thr) > 0.0
    ensures Prob(Eligible(val, w, thr), t) == if w[t] >= thr then val(w[t]) / Mass(val, w, thr) else 0.0
  {
    hide Eligible, Total, Mass, Prob;
    EligibleTotal(val, w, thr);
    if w[t] >= thr {
      EligibleAt(val, w, thr, t);
      ListedProb(Eligible(val, w, thr), t, |Eligible(val, w[..t], thr)|);
    } else {
      NotEligible(val, w, thr, t);
      NeverReturned(Eligible(val, w, thr), t);
    }
  }

  lemma {:induction false} NotEligible(val: nat -> real, w: seq<nat>, thr: nat, t: nat)
    requires t < |w| && w[t] < thr
    ensures forall i | 0 <= i < |Eligible(val, w, thr)| :: Eligible(val, w, thr)[i].tok != t
  {
    var n := |w| - 1;
    EligibleTotal(val, w[..n], thr);
    if t < n {
      NotEligible(val, w[..n], thr, t);
    }
  }

  /** The sampler draws from the distribution it reports: for every parameter
      setting and every token, the uniform draws that return the token, and no
      other, form an interval as long as its reported probability. */
  lemma SampleFollowsDistribution(env: Env, p: Params, keys: seq<int>, t: nat) returns (lo: real)
    requires EnvOk(env) && Cands(env, p, keys).Some?
    ensures Proper(Cands(env, p, keys).value)
    ensures 0.0 <= lo && lo + Prob(Cands(env, p, keys).value, t) <= 1.0
    ensures forall u: real | 0.0 <= u < 1.0 ::
      Returns(Cands(env, p, keys).value, u, t) <==> lo <= u < lo + Prob(Cands(env, p, keys).value, t)
    ensures forall u: real, s: nat | Returns(Cands(env, p, keys).value, u, t) && Returns(Cands(env, p, keys).value, u, s) ::
      s == t
  {
    hide Cands, Prob, Returns, EnvOk, Proper;
    CandsProper(env, p, keys);
    var c := Cands(env, p, keys).value;
    lo := DrawFollowsReport(c, t);
    forall u: real, s: nat | Returns(c, u, t) && Returns(c, u, s) ensures s == t {
      ReturnsOnce(c, u, s, t);
    }
  }
}
