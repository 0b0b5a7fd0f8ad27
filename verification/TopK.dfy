/** The bounded top-k buffer. A logit is represented by its place in the order
    of the floats (NaN is mapped away before); only comparisons matter here. */
module TopK {

  /** Larger value first, then lower token. */
  predicate Better(v: seq<int>, s: nat, t: nat)
    requires s < |v| && t < |v|
  {
    v[s] > v[t] || (v[s] == v[t] && s < t)
  }

  datatype Entry = Entry(key: int, tok: nat)

  /** From the worst to the best of tokens below `m`, each once. */
  ghost predicate Ordered(v: seq<int>, m: nat, buf: seq<Entry>)
    requires m <= |v|
  {
    (forall i | 0 <= i < |buf| :: buf[i].tok < m && buf[i].key == v[buf[i].tok]) &&
    forall i, j | 0 <= i < j < |buf| :: Better(v, buf[j].tok, buf[i].tok)
  }

  ghost predicate Holds(buf: seq<Entry>, t: nat) {
    exists i :: 0 <= i < |buf| && buf[i].tok == t
  }

  /** Every token below `m` left out is worse than all that are kept. */
  ghost predicate KBest(v: seq<int>, m: nat, k: nat, buf: seq<Entry>) {
    m <= |v| && |buf| == (if m < k then m else k) && Ordered(v, m, buf) &&
    forall t: nat | t < m && !Holds(buf, t) :: |buf| == k && forall i | 0 <= i < |buf| :: Better(v, buf[i].tok, t)
  }

  /** The first entry not below `key`. */
  function PartitionPoint(buf: seq<Entry>, key: int): (p: nat)
    ensures p <= |buf| && forall i | 0 <= i < p :: buf[i].key < key
    ensures p < |buf| ==> buf[p].key >= key
  {
    if buf != [] && buf[0].key < key then 1 + PartitionPoint(buf[1..], key) else 0
  }

  /** In an ordered buffer everything from the partition point on is better
      than a new token of that value. */
  lemma AfterPartition(v: seq<int>, m: nat, buf: seq<Entry>, i: nat)
    requires m < |v| && Ordered(v, m, buf) && PartitionPoint(buf, v[m]) <= i < |buf|
    ensures Better(v, buf[i].tok, m)
  {
    var p := PartitionPoint(buf, v[m]);
    if i > p {
      assert Better(v, buf[i].tok, buf[p].tok);
    }
  }

  lemma InsertKeepsOrder(v: seq<int>, m: nat, buf: seq<Entry>, from: nat)
    requires m < |v| && Ordered(v, m, buf) && from <= PartitionPoint(buf, v[m])
    ensures var p := PartitionPoint(buf, v[m]);
      Ordered(v, m + 1, buf[from..p] + [Entry(v[m], m)] + buf[p..])
  {
    var p := PartitionPoint(buf, v[m]);
    forall i | p <= i < |buf| ensures Better(v, buf[i].tok, m) {
      AfterPartition(v, m, buf, i);
    }
  }

  lemma InsertHolds(buf: seq<Entry>, from: nat, p: nat, e: Entry, t: nat)
    requires from <= p <= |buf|
    ensures Holds(buf[from..p] + [e] + buf[p..], t) <==> t == e.tok || Holds(buf[from..], t)
  {
    var now := buf[from..p] + [e] + buf[p..];
    if i :| 0 <= i < |buf[from..]| && buf[from..][i].tok == t {
      var j := if from + i < p then i else i + 1;
      assert now[j].tok == t;
    }
    if t == e.tok {
      assert now[p - from].tok == t;
    }
    if i :| 0 <= i < |now| && now[i].tok == t {
      if i != p - from {
        var j := if i < p - from then i else i - 1;
        assert buf[from..][j].tok == t;
      }
    }
  }

  /** Room is left: the token goes to its place. */
  lemma Grows(v: seq<int>, m: nat, k: nat, buf: seq<Entry>)
    requires KBest(v, m, k, buf) && m < |v| && |buf| < k
    ensures var p := PartitionPoint(buf, v[m]);
      KBest(v, m + 1, k, buf[..p] + [Entry(v[m], m)] + buf[p..])
  {
    hide PartitionPoint;
    var p := PartitionPoint(buf, v[m]);
    var now := buf[..p] + [Entry(v[m], m)] + buf[p..];
    assert buf[0..p] == buf[..p] && buf[0..] == buf;
    InsertKeepsOrder(v, m, buf, 0);
    forall t: nat | t < m + 1 ensures Holds(now, t) {
      InsertHolds(buf, 0, p, Entry(v[m], m), t);
    }
  }

  /** The buffer is full and the token beats its worst entry, which leaves. */
  lemma Replaces(v: seq<int>, m: nat, k: nat, buf: seq<Entry>)
    requires KBest(v, m, k, buf) && m < |v| && |buf| == k > 0 && v[m] > buf[0].key
    ensures var p := PartitionPoint(buf, v[m]);
      p > 0 && KBest(v, m + 1, k, buf[1..p] + [Entry(v[m], m)] + buf[p..])
  {
    hide PartitionPoint;
    var p := PartitionPoint(buf, v[m]);
    var now := buf[1..p] + [Entry(v[m], m)] + buf[p..];
    InsertKeepsOrder(v, m, buf, 1);
    forall t: nat | t < m + 1 && !Holds(now, t) ensures forall i | 0 <= i < |now| :: Better(v, now[i].tok, t) {
      InsertHolds(buf, 1, p, Entry(v[m], m), t);
      LeftOut(v, m, k, buf, t);
      forall i | 0 <= i < |now| ensures Better(v, now[i].tok, t) {
        BetterThanWorst(v, m, buf, p, now, i);
      }
    }
  }

  lemma LeftOut(v: seq<int>, m: nat, k: nat, buf: seq<Entry>, t: nat)
    requires KBest(v, m, k, buf) && m < |v| && |buf| == k > 0 && t < m && !Holds(buf[1..], t)
    ensures t == buf[0].tok || Better(v, buf[0].tok, t)
  {
    forall i | 0 < i < |buf| ensures Holds(buf[1..], buf[i].tok) {
      assert buf[1..][i - 1] == buf[i];
    }
    if !Holds(buf, t) {
      assert Better(v, buf[0].tok, t);
    }
  }

  lemma BetterThanWorst(v: seq<int>, m: nat, buf: seq<Entry>, p: nat, now: seq<Entry>, i: nat)
    requires m < |v| && Ordered(v, m, buf) && 0 < p <= |buf| && buf[0].key < v[m]
    requires now == buf[1..p] + [Entry(v[m], m)] + buf[p..] && i < |now|
    ensures now[i].tok < |v| && Better(v, now[i].tok, buf[0].tok)
  {
    if i < p - 1 {
      assert now[i] == buf[i + 1];
    } else if i > p - 1 {
      assert now[i] == buf[i];
    }
  }

  /** The buffer is full and the token does not beat its worst entry. */
  lemma Stays(v: seq<int>, m: nat, k: nat, buf: seq<Entry>)
    requires KBest(v, m, k, buf) && m < |v| && |buf| == k > 0 && v[m] <= buf[0].key
    ensures KBest(v, m + 1, k, buf)
  {
    forall i | 0 <= i < |buf| ensures Better(v, buf[i].tok, m) {
      if i > 0 {
        assert Better(v, buf[i].tok, buf[0].tok);
      }
    }
  }

  const BLOCK: nat := 64

  method MaxOf(block: seq<int>) returns (mx: int)
    requires block != []
    ensures mx in block && forall i | 0 <= i < |block| :: block[i] <= mx
  {
    mx := block[0];
    for i := 1 to |block|
      invariant mx in block && forall j | 0 <= j < i :: block[j] <= mx
    {
      if block[i] > mx {
        mx := block[i];
      }
    }
  }

  /** The buffer after one more token. */
  function Add(v: seq<int>, m: nat, k: nat, buf: seq<Entry>): seq<Entry>
    requires m < |v| && k > 0
  {
    var p := PartitionPoint(buf, v[m]);
    if |buf| < k then buf[..p] + [Entry(v[m], m)] + buf[p..]
    else if v[m] > buf[0].key && p > 0 then buf[1..p] + [Entry(v[m], m)] + buf[p..]
    else buf
  }

  /** The buffer after the first `n` tokens, one by one. */
  function Best(v: seq<int>, n: nat, k: nat): seq<Entry>
    requires n <= |v| && k > 0
  {
    if n == 0 then [] else Add(v, n - 1, k, Best(v, n - 1, k))
  }

  /** It holds exactly the `k` best. */
  lemma {:induction false} BestIsKBest(v: seq<int>, n: nat, k: nat)
    requires n <= |v| && k > 0
    ensures KBest(v, n, k, Best(v, n, k))
  {
    hide KBest, Add;
    if n == 0 {
      NothingIsBest(v, k);
    } else {
      BestIsKBest(v, n - 1, k);
      AddKeepsBest(v, n - 1, k, Best(v, n - 1, k));
    }
  }

  lemma NothingIsBest(v: seq<int>, k: nat)
    ensures KBest(v, 0, k, [])
  {
  }

  lemma AddKeepsBest(v: seq<int>, m: nat, k: nat, buf: seq<Entry>)
    requires KBest(v, m, k, buf) && m < |v| && k > 0
    ensures KBest(v, m + 1, k, Add(v, m, k, buf))
  {
    hide KBest, PartitionPoint;
    SizeOf(v, m, k, buf);
    if |buf| < k {
      Grows(v, m, k, buf);
    } else if v[m] > buf[0].key {
      Replaces(v, m, k, buf);
    } else {
      Stays(v, m, k, buf);
    }
  }

  /** The `k` best tokens; a block whose maximum cannot beat the worst kept
      entry is skipped. */
  method SelectTopK(v: seq<int>, k: nat) returns (buf: seq<Entry>)
    requires k > 0
    ensures buf == Best(v, |v|, k) && KBest(v, |v|, k, buf)
  {
    hide KBest, Add;
    buf := [];
    var i := 0;
    while i < |v|
      invariant i <= |v| && buf == Best(v, i, k)
      decreases |v| - i
    {
      BestIsKBest(v, i, k);
      SizeOf(v, i, k, buf);
      var end := if i + BLOCK < |v| then i + BLOCK else |v|;
      var mx := MaxOf(v[i..end]);
      if |buf| == k && mx <= buf[0].key {
        SkipBlock(v, i, end, k, mx);
      } else {
        buf := AddBlock(v, i, end, k, buf);
      }
      i := end;
    }
    BestIsKBest(v, |v|, k);
  }

  lemma {:induction false} SkipBlock(v: seq<int>, i: nat, end: nat, k: nat, mx: int)
    requires i <= end <= |v| && k > 0 && |Best(v, i, k)| == k && mx <= Best(v, i, k)[0].key
    requires forall j | 0 <= j < |v[i..end]| :: v[i..end][j] <= mx
    ensures Best(v, end, k) == Best(v, i, k)
    decreases end - i
  {
    if i < end {
      assert v[i..end][0] == v[i];
      assert Best(v, i + 1, k) == Best(v, i, k);
      assert v[i + 1..end] == v[i..end][1..];
      SkipBlock(v, i + 1, end, k, mx);
    }
  }

  /** Token by token, dropping the worst entry when the buffer is full. */
  method AddBlock(v: seq<int>, i: nat, end: nat, k: nat, was: seq<Entry>) returns (buf: seq<Entry>)
    requires i <= end <= |v| && k > 0 && was == Best(v, i, k)
    ensures buf == Best(v, end, k)
  {
    hide KBest, PartitionPoint;
    buf := was;
    for m := i to end
      invariant buf == Best(v, m, k)
    {
      BestIsKBest(v, m, k);
      SizeOf(v, m, k, buf);
      if |buf| < k {
        var p := PartitionPoint(buf, v[m]);
        buf := buf[..p] + [Entry(v[m], m)] + buf[p..];
      } else if v[m] > buf[0].key {
        Replaces(v, m, k, buf);
        var p := PartitionPoint(buf, v[m]);
        buf := buf[1..p] + [Entry(v[m], m)] + buf[p..];
      }
    }
  }

  lemma SizeOf(v: seq<int>, m: nat, k: nat, buf: seq<Entry>)
    requires KBest(v, m, k, buf)
    ensures |buf| == if m < k then m else k
  {
  }

  /** `k` distinct tokens, none of them below a token left out; which of equal
      ones are kept is open. */
  ghost predicate Selects(v: seq<int>, k: nat, buf: seq<Entry>) {
    |buf| == k && (forall i | 0 <= i < k :: buf[i].tok < |v| && buf[i].key == v[buf[i].tok]) &&
    (forall i, j | 0 <= i < j < k :: buf[i].tok != buf[j].tok) &&
    forall t: nat | t < |v| && !Holds(buf, t) :: forall i | 0 <= i < k :: buf[i].key >= v[t]
  }

  lemma KBestSelects(v: seq<int>, k: nat, buf: seq<Entry>)
    requires KBest(v, |v|, k, buf) && k <= |v|
    ensures Selects(v, k, buf)
  {
  }

  // ----- what is kept ---------------------------------------------------------------------

  ghost function Toks(buf: seq<Entry>): set<nat> {
    set i | 0 <= i < |buf| :: buf[i].tok
  }

  ghost function BetterThan(v: seq<int>, m: nat, t: nat): set<nat>
    requires t < m <= |v|
  {
    set s: nat | s < m && Better(v, s, t)
  }

  lemma {:induction false} ToksCount(v: seq<int>, m: nat, buf: seq<Entry>)
    requires m <= |v| && Ordered(v, m, buf)
    ensures |Toks(buf)| == |buf|
  {
    if buf != [] {
      var n := |buf| - 1;
      var init := buf[..n];
      ToksCount(v, m, init);
      assert Toks(buf) == Toks(init) + {buf[n].tok};
      assert forall i | 0 <= i < n :: Better(v, buf[n].tok, init[i].tok);
    }
  }

  lemma {:induction false} SubsetCount(a: set<nat>, b: set<nat>)
    requires a <= b
    ensures |a| <= |b|
  {
    assert |b - a| == |b| - |a|;
  }

  /** A token is kept exactly if fewer than `k` tokens are better. */
  lemma {:induction false} KeptIffRanked(v: seq<int>, m: nat, k: nat, buf: seq<Entry>, t: nat)
    requires KBest(v, m, k, buf) && t < m && k > 0
    ensures t in Toks(buf) <==> |BetterThan(v, m, t)| < k
  {
    ToksCount(v, m, buf);
    if t in Toks(buf) {
      assert Holds(buf, t);
      forall s | s in BetterThan(v, m, t) ensures s in Toks(buf) - {t} {
        BetterIsKept(v, m, k, buf, s, t);
      }
      SubsetCount(BetterThan(v, m, t), Toks(buf) - {t});
    } else {
      assert !Holds(buf, t);
      SubsetCount(Toks(buf), BetterThan(v, m, t));
    }
  }

  lemma BetterIsKept(v: seq<int>, m: nat, k: nat, buf: seq<Entry>, s: nat, t: nat)
    requires KBest(v, m, k, buf) && s < m && t < m && Holds(buf, t) && Better(v, s, t)
    ensures Holds(buf, s) && s != t
  {
    var i :| 0 <= i < |buf| && buf[i].tok == t;
  }
}
