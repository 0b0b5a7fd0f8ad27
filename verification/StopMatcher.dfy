/** The streaming stop-string matcher: text that might still become a stop
    string is held back, everything else is released at once.

    A string is a sequence of characters and stands for its UTF-8 encoding; text
    is only ever cut between characters. */
module StopStrings {
  import opened Wrappers

  // ----- occurrences -------------------------------------------------------

  predicate OccursAt(s: string, w: string, p: nat) {
    p + |s| <= |w| && w[p..p + |s|] == s
  }

  ghost predicate Contains(s: string, w: string) {
    exists p: nat :: OccursAt(s, w, p)
  }

  /** An occurrence of stop string number `idx` at position `at`. */
  datatype Hit = Hit(at: nat, idx: nat)

  predicate IsHit(stops: seq<string>, w: string, hit: Hit) {
    hit.idx < |stops| && OccursAt(stops[hit.idx], w, hit.at)
  }

  predicate NoLater(a: Hit, b: Hit) {
    a.at < b.at || (a.at == b.at && a.idx <= b.idx)
  }

  ghost predicate IsFirstHit(stops: seq<string>, w: string, hit: Hit) {
    IsHit(stops, w, hit) && forall h :: IsHit(stops, w, h) ==> NoLater(hit, h)
  }

  ghost predicate NoHit(stops: seq<string>, w: string) {
    forall h :: !IsHit(stops, w, h)
  }

  /** The leftmost occurrence of any stop string, lowest index first. */
  ghost function FirstHit(stops: seq<string>, w: string): (r: Option<Hit>)
    ensures r.None? ==> NoHit(stops, w)
    ensures r.Some? ==> IsFirstHit(stops, w, r.value)
  {
    FirstHitExists(stops, w, 0);
    if h: Hit :| IsFirstHit(stops, w, h) then Some(h) else None
  }

  lemma {:induction false} FirstHitExists(stops: seq<string>, w: string, at: nat)
    requires forall h :: IsHit(stops, w, h) ==> at <= h.at
    ensures NoHit(stops, w) || exists h :: IsFirstHit(stops, w, h)
    decreases |w| + 1 - at
  {
    if at <= |w| {
      var i := LowestAt(stops, w, at, 0);
      if i < |stops| {
        assert IsFirstHit(stops, w, Hit(at, i));
      } else {
        FirstHitExists(stops, w, at + 1);
      }
    }
  }

  ghost function LowestAt(stops: seq<string>, w: string, at: nat, from: nat): (i: nat)
    requires from <= |stops|
    ensures from <= i <= |stops|
    ensures i < |stops| ==> OccursAt(stops[i], w, at)
    ensures forall j | from <= j < i :: !OccursAt(stops[j], w, at)
    decreases |stops| - from
  {
    if from == |stops| || OccursAt(stops[from], w, at) then from else LowestAt(stops, w, at, from + 1)
  }

  // ----- partial matches ---------------------------------------------------

  /** The last `k` characters of `w` are a proper prefix of some stop string. */
  ghost predicate Partial(stops: seq<string>, w: string, k: nat) {
    k <= |w| && exists i: nat :: i < |stops| && k < |stops[i]| && w[|w| - k..] == stops[i][..k]
  }

  ghost predicate IsHold(stops: seq<string>, w: string, h: nat) {
    h <= |w| && (h > 0 ==> Partial(stops, w, h)) && forall k: nat :: Partial(stops, w, k) ==> k <= h
  }

  /** Length of the longest partial match at the end of `w` (0 if none). */
  ghost function Hold(stops: seq<string>, w: string): (h: nat)
    ensures IsHold(stops, w, h)
  {
    HoldExists(stops, w, |w|);
    var h: nat :| IsHold(stops, w, h);
    h
  }

  lemma {:induction false} HoldExists(stops: seq<string>, w: string, n: nat)
    requires n <= |w|
    requires forall k: nat :: Partial(stops, w, k) ==> k <= n
    ensures exists h: nat :: IsHold(stops, w, h)
  {
    if n == 0 || Partial(stops, w, n) {
      assert IsHold(stops, w, n);
    } else {
      HoldExists(stops, w, n - 1);
    }
  }

  // ----- one push ----------------------------------------------------------

  datatype Released = Released(out: string, hit: Option<nat>, pending: string)

  /** What one push releases and what it keeps, given the text held so far. */
  ghost function PushResult(stops: seq<string>, pending: string, text: string): Released {
    if stops == [] then
      Released(text, None, pending)
    else
      var w := pending + text;
      match FirstHit(stops, w)
      case Some(h) => Released(w[..h.at], Some(h.idx), "")
      case None => var cut := |w| - Hold(stops, w); Released(w[..cut], None, w[cut..])
  }

  /** The matcher of one request. */
  class StopMatcher {
    const stops: seq<string>
    var pending: string
    var matched: Option<nat>

    ghost predicate Valid()
      reads this
    {
      (forall i | 0 <= i < |stops| :: stops[i] != "") &&
      (stops == [] ==> pending == "") &&
      (matched.Some? ==> matched.value < |stops|)
    }

    /** Empty stop strings are dropped. */
    constructor (all: seq<string>)
      ensures Valid() && pending == "" && matched == None
      ensures stops == NonEmpty(all)
    {
      stops := NonEmpty(all);
      pending := "";
      matched := None;
    }

    /** Append decoded text; returns the text that is safe to emit and whether
        a stop string was completed. */
    method Push(text: string) returns (out: string, hit: bool)
      requires Valid()
      modifies this
      ensures Valid()
      ensures var r := PushResult(stops, old(pending), text);
        out == r.out && pending == r.pending && hit == r.hit.Some? &&
        matched == if r.hit.Some? then r.hit else old(matched)
    {
      if |stops| == 0 {
        return text, false;
      }
      pending := pending + text;
      var best := Leftmost(stops, pending);
      match best {
        case Some(h) =>
          FirstHitUnique(stops, pending, h);
          matched := Some(h.idx);
          out := pending[..h.at];
          pending := "";
          return out, true;
        case None =>
          var h := LongestPartial(stops, pending);
          var cut := |pending| - h;
          out := pending[..cut];
          pending := pending[cut..];
          return out, false;
      }
    }

    /** Release held-back text (generation ended for another reason). */
    method Flush() returns (out: string)
      requires Valid()
      modifies this
      ensures Valid() && out == old(pending) && pending == "" && matched == old(matched)
    {
      out := pending;
      pending := "";
    }
  }

  function NonEmpty(all: seq<string>): (r: seq<string>)
    ensures |r| <= |all| && forall i | 0 <= i < |r| :: r[i] != ""
    ensures forall s :: s in r <==> s in all && s != ""
  {
    if all == [] then []
    else if all[0] == "" then NonEmpty(all[1..])
    else [all[0]] + NonEmpty(all[1..])
  }

  lemma {:induction false} NonEmptyJoins(a: seq<string>, b: seq<string>)
    ensures NonEmpty(a + b) == NonEmpty(a) + NonEmpty(b)
  {
    if a == [] {
      assert a + b == b;
    } else {
      assert (a + b)[1..] == a[1..] + b;
      NonEmptyJoins(a[1..], b);
    }
  }

  /** A stop string that is not empty is as far back as there are such before it. */
  lemma NonEmptyKeepsOrder(all: seq<string>, k: nat)
    requires k < |all| && all[k] != ""
    ensures var i := |NonEmpty(all[..k])|;
      i < |NonEmpty(all)| && NonEmpty(all)[i] == all[k] && NonEmpty(all)[..i] == NonEmpty(all[..k])
  {
    var rest := all[k..];
    assert all == all[..k] + rest && rest[0] == all[k];
    NonEmptyJoins(all[..k], rest);
  }

  lemma FirstHitUnique(stops: seq<string>, w: string, h: Hit)
    requires IsFirstHit(stops, w, h)
    ensures FirstHit(stops, w) == Some(h)
  {
    assert IsHit(stops, w, h);
    var f := FirstHit(stops, w);
    assert NoLater(f.value, h) && NoLater(h, f.value);
  }

  /** Leftmost position of one string, by scanning. */
  method Find(s: string, w: string) returns (r: Option<nat>)
    ensures r.None? ==> forall p: nat :: !OccursAt(s, w, p)
    ensures r.Some? ==> OccursAt(s, w, r.value) && forall p: nat :: OccursAt(s, w, p) ==> r.value <= p
  {
    var p := 0;
    while p + |s| <= |w|
      invariant forall q: nat :: q < p ==> !OccursAt(s, w, q)
    {
      if w[p..p + |s|] == s {
        return Some(p);
      }
      p := p + 1;
    }
    return None;
  }

  /** Minimum over the stop strings of (leftmost position, index). */
  method Leftmost(stops: seq<string>, w: string) returns (best: Option<Hit>)
    ensures best.None? ==> NoHit(stops, w)
    ensures best.Some? ==> IsFirstHit(stops, w, best.value)
  {
    best := None;
    for i := 0 to |stops|
      invariant best.None? ==> forall h :: IsHit(stops, w, h) ==> h.idx >= i
      invariant best.Some? ==> IsHit(stops, w, best.value)
      invariant best.Some? ==> best.value.idx < i
      invariant best.Some? ==> forall h :: IsHit(stops, w, h) && h.idx < i ==> NoLater(best.value, h)
    {
      var at := Find(stops[i], w);
      if at.Some? && (best.None? || at.value < best.value.at) {
        best := Some(Hit(at.value, i));
      }
    }
  }

  /** For every stop string, try the prefix lengths above the best one so far,
      longest first. */
  method LongestPartial(stops: seq<string>, w: string) returns (hold: nat)
    requires forall i | 0 <= i < |stops| :: stops[i] != ""
    ensures hold == Hold(stops, w)
  {
    hold := 0;
    for i := 0 to |stops|
      invariant hold <= |w|
      invariant hold > 0 ==> Partial(stops, w, hold)
      invariant forall j, k: nat :: 0 <= j < i && k < |stops[j]| && k <= |w| && w[|w| - k..] == stops[j][..k] ==> k <= hold
    {
      var s := stops[i];
      var k := if |s| - 1 <= |w| then |s| - 1 else |w|;
      while k > hold && w[|w| - k..] != s[..k]
        invariant k <= |w| && k < |s|
        invariant forall m: nat :: k < m < |s| && m <= |w| ==> w[|w| - m..] != s[..m]
      {
        k := k - 1;
      }
      if k > hold {
        hold := k;
      }
    }
  }

  // ----- feeding a chunked text ---------------------------------------------

  /** Everything released so far, what is held, and the stop index matched. */
  datatype Feed = Feed(emitted: string, pending: string, matched: Option<nat>)

  /** Push the chunks one by one; nothing is pushed after a match. */
  ghost function Run(stops: seq<string>, chunks: seq<string>): Feed {
    if chunks == [] then
      Feed("", "", None)
    else
      var f := Run(stops, chunks[..|chunks| - 1]);
      if f.matched.Some? then f else PushOnto(stops, f, chunks[|chunks| - 1])
  }

  ghost function PushOnto(stops: seq<string>, f: Feed, chunk: string): Feed {
    var r := PushResult(stops, f.pending, chunk);
    Feed(f.emitted + r.out, r.pending, r.hit)
  }

  /** The visible text of a whole run (held text is flushed at the end) and
      the stop string that cut it. */
  datatype Cut = Cut(text: string, stop: Option<nat>)

  ghost function Outcome(stops: seq<string>, chunks: seq<string>): Cut {
    var f := Run(stops, chunks);
    Cut(f.emitted + f.pending, f.matched)
  }

  /** Reference: cut the whole text at its first stop string. */
  ghost function CutAtStop(stops: seq<string>, w: string): Cut {
    match FirstHit(stops, w)
    case Some(h) => Cut(w[..h.at], Some(h.idx))
    case None => Cut(w, None)
  }

  // ----- occurrences and concatenation ----------------------------------------

  lemma SliceOfSlice(w: string, a: nat, b: nat, p: nat, q: nat)
    requires a <= b <= |w| && p <= q <= b - a
    ensures w[a..b][p..q] == w[a + p..a + q]
  {
    assert forall i | 0 <= i < q - p :: w[a..b][p..q][i] == w[a + p + i];
  }

  lemma OccursLeft(s: string, a: string, b: string, p: nat)
    requires p + |s| <= |a|
    ensures OccursAt(s, a + b, p) <==> OccursAt(s, a, p)
  {
    assert (a + b)[p..p + |s|] == a[p..p + |s|];
  }

  lemma OccursRight(s: string, a: string, b: string, p: nat)
    ensures OccursAt(s, a + b, |a| + p) <==> OccursAt(s, b, p)
  {
    if p + |s| <= |b| {
      assert (a + b)[|a| + p..|a| + p + |s|] == b[p..p + |s|];
    }
  }

  /** An occurrence in `e + t` that starts in `e` and ends in `t`. */
  lemma OccursAcross(s: string, e: string, t: string, p: nat)
    requires p <= |e| < p + |s| && OccursAt(s, e + t, p)
    ensures e[p..] == s[..|e| - p]
  {
    assert (e + t)[p..p + |s|][..|e| - p] == e[p..];
  }

  /** Text that ends in a partial match starting at `p` holds back from `p` on,
      so a held suffix loses nothing. */
  lemma HeldSuffixCovers(stops: seq<string>, e: string, i: nat, p: nat)
    requires i < |stops| && p <= |e| && |e| - p < |stops[i]|
    requires e[p..] == stops[i][..|e| - p]
    ensures |e| - Hold(stops, e) <= p
  {
    assert Partial(stops, e, |e| - p);
  }

  lemma HitReachesBeyond(stops: seq<string>, e: string, t: string, h: Hit)
    requires IsHit(stops, e + t, h)
    ensures IsHit(stops, e, h) || |e| < h.at + |stops[h.idx]|
  {
    if h.at + |stops[h.idx]| <= |e| {
      OccursLeft(stops[h.idx], e, t, h.at);
    }
  }

  /** `cut` leaves at least the held text of `e`. */
  ghost predicate Covers(stops: seq<string>, e: string, cut: nat) {
    cut <= |e| - Hold(stops, e)
  }

  /** Occurrences in `e + t` are those in the uncut part of `e` plus `t`. */
  lemma {:induction false} HitsShift(stops: seq<string>, e: string, t: string, cut: nat, h: Hit)
    requires NoHit(stops, e) && Covers(stops, e, cut)
    requires IsHit(stops, e + t, h)
    ensures cut <= h.at && IsHit(stops, e[cut..] + t, Hit(h.at - cut, h.idx))
  {
    var s := stops[h.idx];
    HitReachesBeyond(stops, e, t, h);
    if h.at <= |e| {
      OccursAcross(s, e, t, h.at);
      HeldSuffixCovers(stops, e, h.idx, h.at);
    }
    assert e + t == e[..cut] + (e[cut..] + t);
    OccursRight(s, e[..cut], e[cut..] + t, h.at - cut);
  }

  lemma HitsUnshift(stops: seq<string>, a: string, b: string, h: Hit)
    requires IsHit(stops, b, h)
    ensures IsHit(stops, a + b, Hit(|a| + h.at, h.idx))
  {
    OccursRight(stops[h.idx], a, b, h.at);
  }

  /** The first hit of `a + b`, found by looking at `b` alone. */
  ghost predicate SameFirstHit(stops: seq<string>, a: string, b: string) {
    FirstHit(stops, a + b) ==
      match FirstHit(stops, b)
      case Some(h) => Some(Hit(|a| + h.at, h.idx))
      case None => None
  }

  /** The first hit is found in the uncut part alone. */
  lemma {:induction false} FirstHitShift(stops: seq<string>, e: string, t: string, cut: nat)
    requires NoHit(stops, e) && Covers(stops, e, cut)
    ensures SameFirstHit(stops, e[..cut], e[cut..] + t)
  {
    var b := e[cut..] + t;
    assert e + t == e[..cut] + b;
    match FirstHit(stops, b) {
      case None =>
        forall h | IsHit(stops, e + t, h) ensures false {
          HitsShift(stops, e, t, cut, h);
        }
      case Some(f) =>
        HitsUnshift(stops, e[..cut], b, f);
        var g := Hit(cut + f.at, f.idx);
        forall h | IsHit(stops, e + t, h) ensures NoLater(g, h) {
          HitsShift(stops, e, t, cut, h);
          assert NoLater(f, Hit(h.at - cut, h.idx));
        }
        FirstHitUnique(stops, e + t, g);
    }
  }

  /** A partial match of `e + t` no longer than `b` is one of any suffix `b`. */
  lemma PartialSuffix(stops: seq<string>, a: string, b: string, k: nat)
    requires k <= |b|
    ensures Partial(stops, a + b, k) <==> Partial(stops, b, k)
  {
    assert (a + b)[|a + b| - k..] == b[|b| - k..];
  }

  /** A partial match of `e + t` reaches back no further than the held suffix. */
  lemma {:induction false} PartialFits(stops: seq<string>, e: string, t: string, k: nat)
    requires Partial(stops, e + t, k)
    ensures k <= Hold(stops, e) + |t|
  {
    var i: nat :| i < |stops| && k < |stops[i]| && (e + t)[|e + t| - k..] == stops[i][..k];
    if k > |t| {
      var p := |e + t| - k;
      assert e[p..] == (e + t)[p..][..|e| - p] == stops[i][..k][..|e| - p] == stops[i][..|e| - p];
      HeldSuffixCovers(stops, e, i, p);
    }
  }

  /** The longest partial match is found in the uncut part alone. */
  lemma {:induction false} HoldShift(stops: seq<string>, e: string, t: string, cut: nat)
    requires Covers(stops, e, cut)
    ensures Hold(stops, e[cut..] + t) == Hold(stops, e[..cut] + (e[cut..] + t))
  {
    var b := e[cut..] + t;
    assert e + t == e[..cut] + b;
    var h := Hold(stops, e + t);
    PartialSuffix(stops, e[..cut], b, Hold(stops, b));
    if h > 0 {
      PartialFits(stops, e, t, h);
      PartialSuffix(stops, e[..cut], b, h);
    }
  }

  // ----- what a run does ------------------------------------------------------

  /** Nothing has matched: released plus held text is the input, no stop string
      occurs in it, and the held text is its longest suffix that is a proper
      prefix of a stop string. */
  ghost predicate Waiting(stops: seq<string>, w: string, f: Feed) {
    f.matched.None? && NoHit(stops, w) && f.emitted + f.pending == w && |f.pending| == Hold(stops, w)
  }

  /** `before` had no stop string; `w`, one chunk longer, has, and is cut at
      its leftmost one. */
  ghost predicate Stopped(stops: seq<string>, before: string, w: string, f: Feed) {
    NoHit(stops, before) && before <= w && f.matched.Some? && f.pending == "" &&
    |f.emitted| <= |w| && f.emitted == w[..|f.emitted|] &&
    FirstHit(stops, w) == Some(Hit(|f.emitted|, f.matched.value))
  }

  lemma NoStopsKeep(w: string, f: Feed, chunk: string)
    requires Waiting([], w, f)
    ensures Waiting([], w + chunk, PushOnto([], f, chunk))
  {
    assert f.pending == "" && Hold([], w + chunk) == 0;
    assert f.emitted + chunk + "" == w + chunk;
  }

  /** The text after the held suffix is cut where the whole text is cut. */
  lemma ReleasedText(e: string, b: string, n: nat)
    requires n <= |b|
    ensures e + b[..n] == (e + b)[..|e| + n]
    ensures e + b[..n] + b[n..] == e + b
  {
  }

  lemma {:induction false} PushKeeps(stops: seq<string>, w: string, f: Feed, chunk: string)
    requires Waiting(stops, w, f)
    ensures var g := PushOnto(stops, f, chunk);
      Waiting(stops, w + chunk, g) || Stopped(stops, w, w + chunk, g)
  {
    if stops == [] {
      NoStopsKeep(w, f, chunk);
    } else {
      var cut := |w| - Hold(stops, w);
      assert f.emitted == w[..cut] && f.pending == w[cut..];
      FirstHitShift(stops, w, chunk, cut);
      HoldShift(stops, w, chunk, cut);
      assert w + chunk == f.emitted + (f.pending + chunk);
      if FirstHit(stops, f.pending + chunk).None? {
        PushWaits(stops, w, f, chunk);
      } else {
        PushStops(stops, w, f, chunk);
      }
    }
  }

  lemma PushWaits(stops: seq<string>, w: string, f: Feed, chunk: string)
    requires stops != [] && f.emitted + f.pending == w
    requires FirstHit(stops, w + chunk).None? && FirstHit(stops, f.pending + chunk).None?
    requires Hold(stops, f.pending + chunk) == Hold(stops, w + chunk)
    ensures Waiting(stops, w + chunk, PushOnto(stops, f, chunk))
  {
    var b := f.pending + chunk;
    var n := |b| - Hold(stops, b);
    ReleasedText(f.emitted, b, n);
    assert PushOnto(stops, f, chunk) == Feed(f.emitted + b[..n], b[n..], None);
    assert w + chunk == f.emitted + b;
  }

  lemma PushStops(stops: seq<string>, w: string, f: Feed, chunk: string)
    requires stops != [] && f.emitted + f.pending == w && NoHit(stops, w)
    requires var h := FirstHit(stops, f.pending + chunk);
      h.Some? && FirstHit(stops, w + chunk) == Some(Hit(|f.emitted| + h.value.at, h.value.idx))
    ensures Stopped(stops, w, w + chunk, PushOnto(stops, f, chunk))
  {
    var b := f.pending + chunk;
    ReleasedText(f.emitted, b, FirstHit(stops, b).value.at);
    assert w + chunk == f.emitted + b;
  }

  /** Chunk `n` is the first to complete a stop string. */
  ghost predicate StoppedAt(stops: seq<string>, chunks: seq<string>, n: nat, f: Feed) {
    n < |chunks| && Stopped(stops, Flatten(chunks[..n]), Flatten(chunks[..n]) + chunks[n], f)
  }

  /** Before a hit the matcher is waiting on everything fed so far; after one,
      the first chunk to complete a stop string has cut the text. */
  lemma {:induction false} RunMeaning(stops: seq<string>, chunks: seq<string>)
    requires forall i | 0 <= i < |stops| :: stops[i] != ""
    ensures var f := Run(stops, chunks);
      if f.matched.None? then Waiting(stops, Flatten(chunks), f)
      else exists n: nat :: StoppedAt(stops, chunks, n, f)
  {
    if chunks != [] {
      var n := |chunks| - 1;
      var f := Run(stops, chunks[..n]);
      RunMeaning(stops, chunks[..n]);
      if f.matched.Some? {
        var m: nat :| StoppedAt(stops, chunks[..n], m, f);
        assert chunks[..n][..m] == chunks[..m];
        assert StoppedAt(stops, chunks, m, f);
      } else {
        PushKeeps(stops, Flatten(chunks[..n]), f, chunks[n]);
        assert StoppedAt(stops, chunks, n, Run(stops, chunks)) || Run(stops, chunks).matched.None?;
      }
    }
  }

  lemma {:induction false} FlattenSplit(chunks: seq<string>, n: nat)
    requires n < |chunks|
    ensures Flatten(chunks[..n]) + chunks[n] <= Flatten(chunks)
  {
    assert chunks[..n + 1] + chunks[n + 1..] == chunks;
    assert chunks[..n + 1][..n] == chunks[..n];
    FlattenAppend(chunks[..n + 1], chunks[n + 1..]);
  }

  lemma {:induction false} CleanPrefix(stops: seq<string>, w: string, n: nat)
    requires n <= |w| && forall i | 0 <= i < |stops| :: stops[i] != ""
    requires forall h :: IsHit(stops, w, h) ==> n <= h.at
    ensures NoHit(stops, w[..n])
  {
    forall h | IsHit(stops, w[..n], h) ensures false {
      assert w[..n] + w[n..] == w;
      OccursLeft(stops[h.idx], w[..n], w[n..], h.at);
      assert IsHit(stops, w, h);
    }
  }

  /** Emitted text never contains a stop string, and is always a prefix of the
      input. */
  lemma {:induction false} EmittedIsClean(stops: seq<string>, chunks: seq<string>)
    requires forall i | 0 <= i < |stops| :: stops[i] != ""
    ensures var f := Run(stops, chunks);
      f.emitted <= Flatten(chunks) && NoHit(stops, f.emitted)
  {
    var f := Run(stops, chunks);
    RunMeaning(stops, chunks);
    if f.matched.Some? {
      var n: nat :| StoppedAt(stops, chunks, n, f);
      FlattenSplit(chunks, n);
      CleanPrefix(stops, Flatten(chunks[..n]) + chunks[n], |f.emitted|);
    } else {
      CleanPrefix(stops, Flatten(chunks), |f.emitted|);
      assert Flatten(chunks)[..|f.emitted|] == f.emitted;
    }
  }

  // ----- when the cut does not depend on the chunking -----------------------

  /** Stop string `j` occurs in stop string `i` at `p`, short of its end. */
  ghost predicate Inside(stops: seq<string>, i: nat, j: nat, p: nat) {
    i < |stops| && j < |stops| && p + |stops[j]| < |stops[i]| && OccursAt(stops[j], stops[i], p)
  }

  /** One of the first `below` stop strings is a prefix of stop string `i` of
      at most `end` characters. */
  ghost predicate Shadowed(stops: seq<string>, i: nat, end: nat, below: nat)
    requires i < |stops|
  {
    exists k: nat :: k < below && k < |stops| && |stops[k]| <= end && OccursAt(stops[k], stops[i], 0)
  }

  /** Whenever a stop string occurs inside another, short of its end, a third
      one listed before the outer one is a prefix of it that ends no later. A
      caller can check this on the list alone. */
  ghost predicate ShadowFree(stops: seq<string>) {
    forall i: nat, j: nat, p: nat :: Inside(stops, i, j, p) ==> Shadowed(stops, i, p + |stops[j]|, i)
  }

  /** The same for the cut position alone: the prefix may be listed anywhere. */
  ghost predicate CutShadowFree(stops: seq<string>) {
    forall i: nat, j: nat, p: nat :: Inside(stops, i, j, p) ==> Shadowed(stops, i, p + |stops[j]|, |stops|)
  }

  /** The visible text and the reported stop string are those of the whole text
      in one piece, for every chunking, exactly when the list is shadow free. */
  lemma {:induction false} ChunkingInvisible(stops: seq<string>)
    requires forall i | 0 <= i < |stops| :: stops[i] != ""
    ensures ShadowFree(stops) <==>
      forall chunks :: Outcome(stops, chunks) == CutAtStop(stops, Flatten(chunks))
  {
    if ShadowFree(stops) {
      forall chunks ensures Outcome(stops, chunks) == CutAtStop(stops, Flatten(chunks)) {
        ShadowFreeOutcome(stops, chunks);
      }
    } else {
      var i: nat, j: nat, p: nat :| Inside(stops, i, j, p) && !Shadowed(stops, i, p + |stops[j]|, i);
      var chunks := SplitInside(stops, i, j, p);
      assert Outcome(stops, chunks) != CutAtStop(stops, Flatten(chunks));
    }
  }

  /** The same for the visible text alone. */
  lemma {:induction false} CutChunkingInvisible(stops: seq<string>)
    requires forall i | 0 <= i < |stops| :: stops[i] != ""
    ensures CutShadowFree(stops) <==>
      forall chunks :: Outcome(stops, chunks).text == CutAtStop(stops, Flatten(chunks)).text
  {
    if CutShadowFree(stops) {
      forall chunks ensures Outcome(stops, chunks).text == CutAtStop(stops, Flatten(chunks)).text {
        ShadowFreeOutcome(stops, chunks);
      }
    } else {
      var i: nat, j: nat, p: nat :| Inside(stops, i, j, p) && !Shadowed(stops, i, p + |stops[j]|, |stops|);
      var chunks := SplitInside(stops, i, j, p);
      assert Outcome(stops, chunks).text != CutAtStop(stops, Flatten(chunks)).text;
    }
  }

  lemma {:induction false} TwoChunks(stops: seq<string>, a: string, b: string, h: Hit)
    requires FirstHit(stops, a) == Some(h)
    ensures Flatten([a, b]) == a + b
    ensures Outcome(stops, [a, b]) == Cut(a[..h.at], Some(h.idx))
  {
    assert [a, b][..1] == [a] && [a][..0] == [];
    assert "" + a == a;
    assert IsHit(stops, a, h);
    assert Run(stops, [a]) == PushOnto(stops, Feed("", "", None), a);
    assert Run(stops, [a, b]) == Run(stops, [a]);
    assert Outcome(stops, [a, b]).text == a[..h.at] + "" == a[..h.at];
  }

  /** Feeding stop string `i` split right after an inner stop string: the first
      chunk is cut at a stop string that ends inside it, the whole text at 0. */
  lemma {:induction false} SplitInside(stops: seq<string>, i: nat, j: nat, p: nat) returns (chunks: seq<string>)
    requires forall i | 0 <= i < |stops| :: stops[i] != ""
    requires Inside(stops, i, j, p)
    ensures var q := p + |stops[j]|; var s := stops[i];
      chunks == [s[..q], s[q..]] && Flatten(chunks) == s &&
      var whole := CutAtStop(stops, s); var split := Outcome(stops, chunks);
      whole.text == "" &&
      (split.text == whole.text ==> Shadowed(stops, i, q, |stops|)) &&
      (split == whole ==> Shadowed(stops, i, q, i))
  {
    var q := p + |stops[j]|;
    var s := stops[i];
    var a := s[..q];
    chunks := [a, s[q..]];
    assert a + s[q..] == s;
    var h := InnerHit(stops, i, j, p);
    TwoChunks(stops, a, s[q..], h);
    WholeStop(stops, i);
  }

  /** The first hit of the stop string cut right after the inner one. */
  lemma {:induction false} InnerHit(stops: seq<string>, i: nat, j: nat, p: nat) returns (h: Hit)
    requires Inside(stops, i, j, p)
    ensures var q := p + |stops[j]|;
      FirstHit(stops, stops[i][..q]) == Some(h) && h.idx < |stops| &&
      (h.at == 0 ==> |stops[h.idx]| <= q && OccursAt(stops[h.idx], stops[i], 0))
  {
    var q := p + |stops[j]|;
    var s := stops[i];
    assert s[..q] + s[q..] == s;
    OccursLeft(stops[j], s[..q], s[q..], p);
    assert IsHit(stops, s[..q], Hit(p, j));
    h := FirstHit(stops, s[..q]).value;
    OccursLeft(stops[h.idx], s[..q], s[q..], h.at);
  }

  lemma {:induction false} WholeStop(stops: seq<string>, i: nat)
    requires i < |stops|
    ensures var c := CutAtStop(stops, stops[i]); c.text == "" && c.stop.Some? && c.stop.value <= i
    ensures var c := CutAtStop(stops, stops[i]); c.stop == Some(i) || c.stop.value < i
  {
    assert IsHit(stops, stops[i], Hit(0, i));
  }

  /** The fed text at whose first hit a run stopped. */
  lemma {:induction false} StoppedText(stops: seq<string>, chunks: seq<string>) returns (w: string)
    requires forall i | 0 <= i < |stops| :: stops[i] != ""
    requires Run(stops, chunks).matched.Some?
    ensures var f := Run(stops, chunks);
      w <= Flatten(chunks) && f.pending == "" && |f.emitted| <= |w| && f.emitted == w[..|f.emitted|] &&
      FirstHit(stops, w) == Some(Hit(|f.emitted|, f.matched.value))
  {
    RunMeaning(stops, chunks);
    var n: nat :| StoppedAt(stops, chunks, n, Run(stops, chunks));
    FlattenSplit(chunks, n);
    w := Flatten(chunks[..n]) + chunks[n];
  }

  lemma {:induction false} WaitingOutcome(stops: seq<string>, chunks: seq<string>)
    requires forall i | 0 <= i < |stops| :: stops[i] != ""
    requires Run(stops, chunks).matched.None?
    ensures Outcome(stops, chunks) == CutAtStop(stops, Flatten(chunks))
  {
    RunMeaning(stops, chunks);
  }

  lemma {:induction false} ShadowFreeOutcome(stops: seq<string>, chunks: seq<string>)
    requires forall i | 0 <= i < |stops| :: stops[i] != ""
    ensures ShadowFree(stops) ==> Outcome(stops, chunks) == CutAtStop(stops, Flatten(chunks))
    ensures CutShadowFree(stops) ==> Outcome(stops, chunks).text == CutAtStop(stops, Flatten(chunks)).text
  {
    var f := Run(stops, chunks);
    if f.matched.None? {
      WaitingOutcome(stops, chunks);
    } else {
      var w := StoppedText(stops, chunks);
      StoppedOutcome(stops, w, Flatten(chunks), f);
    }
  }

  lemma {:induction false} StoppedOutcome(stops: seq<string>, w: string, all: string, f: Feed)
    requires w <= all && f.matched.Some? && f.pending == "" && |f.emitted| <= |w| && f.emitted == w[..|f.emitted|]
    requires FirstHit(stops, w) == Some(Hit(|f.emitted|, f.matched.value))
    ensures ShadowFree(stops) ==> Cut(f.emitted + f.pending, f.matched) == CutAtStop(stops, all)
    ensures CutShadowFree(stops) ==> f.emitted + f.pending == CutAtStop(stops, all).text
  {
    PrefixHit(stops, w, all[|w|..], Hit(|f.emitted|, f.matched.value));
    assert w + all[|w|..] == all;
    assert f.emitted + f.pending == f.emitted == all[..|f.emitted|];
  }

  /** A first hit that outlasts the first hit `h` of a prefix `w` contains it. */
  lemma {:induction false} OuterHit(stops: seq<string>, w: string, t: string, h: Hit, g: Hit)
    requires IsHit(stops, w, h) && IsHit(stops, w + t, g)
    requires g.at <= h.at && |w| < g.at + |stops[g.idx]|
    ensures Inside(stops, g.idx, h.idx, h.at - g.at)
  {
    var s := stops[g.idx];
    var p := h.at - g.at;
    OccursLeft(stops[h.idx], w, t, h.at);
    SliceOfSlice(w + t, g.at, g.at + |s|, p, p + |stops[h.idx]|);
  }

  /** A prefix of the stop string found at `g`, ending by `end`. */
  lemma {:induction false} ShadowHit(stops: seq<string>, w: string, g: Hit, end: nat, below: nat) returns (k: nat)
    requires IsHit(stops, w, g) && Shadowed(stops, g.idx, end, below)
    ensures k < below && k < |stops| && |stops[k]| <= end && IsHit(stops, w, Hit(g.at, k))
  {
    var s := stops[g.idx];
    k :| k < below && k < |stops| && |stops[k]| <= end && OccursAt(stops[k], s, 0);
    SliceOfSlice(w, g.at, g.at + |s|, 0, |stops[k]|);
  }

  /** With a shadow free list, the first hit of a prefix is the first hit. */
  lemma {:induction false} PrefixHit(stops: seq<string>, w: string, t: string, h: Hit)
    requires FirstHit(stops, w) == Some(h)
    ensures FirstHit(stops, w + t).Some?
    ensures ShadowFree(stops) ==> FirstHit(stops, w + t).value == h
    ensures CutShadowFree(stops) ==> FirstHit(stops, w + t).value.at == h.at
  {
    OccursLeft(stops[h.idx], w, t, h.at);
    assert IsHit(stops, w + t, h);
    var g := FirstHit(stops, w + t).value;
    assert NoLater(g, h);
    if g.at + |stops[g.idx]| <= |w| {
      OccursLeft(stops[g.idx], w, t, g.at);
      assert IsHit(stops, w, g);
    } else {
      OuterHit(stops, w, t, h, g);
      var end := h.at - g.at + |stops[h.idx]|;
      if ShadowFree(stops) {
        var k := ShadowHit(stops, w + t, g, end, g.idx);
      }
      if CutShadowFree(stops) {
        var k := ShadowHit(stops, w + t, g, end, |stops|);
        OccursLeft(stops[k], w, t, g.at);
        assert IsHit(stops, w, Hit(g.at, k));
      }
    }
  }

  /** No stop string inside another: then the cut never depends on chunking. */
  lemma {:induction false} UnrelatedStopsAreShadowFree(stops: seq<string>)
    requires forall i: nat, j: nat | i < |stops| && j < |stops| && |stops[j]| < |stops[i]| :: !Contains(stops[j], stops[i])
    ensures ShadowFree(stops) && CutShadowFree(stops)
  {
    forall i: nat, j: nat, p: nat | Inside(stops, i, j, p) ensures false {
      assert Contains(stops[j], stops[i]);
    }
  }

  /** "bc" inside "abcd": the chunks "abc", "d" are not cut like "abcd". */
  lemma {:induction false} InnerStopDependsOnChunking()
    ensures Outcome(["abcd", "bc"], ["abc", "d"]).text != CutAtStop(["abcd", "bc"], "abcd").text
  {
    var stops := ["abcd", "bc"];
    assert "abcd"[1..3] == "bc";
    assert Inside(stops, 0, 1, 1);
    var chunks := SplitInside(stops, 0, 1, 1);
    assert "abcd"[..3] == "abc" && "abcd"[3..] == "d";
    assert "abcd"[0..2][0] == 'a' && stops[1][0] == 'b';
    assert !Shadowed(stops, 0, 3, 2);
  }
}
