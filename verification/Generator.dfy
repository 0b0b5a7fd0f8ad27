/** The generator: state reuse, prompt cache, prefill and decode. Reuse of any
    kind is invisible: the reply is that of the request alone. */
module Generators {
  import opened Wrappers
  import opened States
  import opened PromptCaches
  import opened Reasoning
  import opened Decoding
  import opened Emitters
  import opened DecodeLoops

  // ----- what the shared cache promises -----------------------------------------

  /** Every cached snapshot is the state after exactly its own tokens. */
  ghost predicate Sound(slots: Slots) {
    forall id | id in slots :: SnapshotOf(slots[id].entry.snapshot, slots[id].entry.tokens)
  }

  ghost predicate CacheOk(cache: PromptCache?)
    reads cache
  {
    cache != null ==> cache.Valid() && Sound(cache.slots)
  }

  lemma SoundAfterInsert(before: Slots, after: Slots, id: Id, e: CacheEntry, budget: nat)
    requires Sound(before) && SnapshotOf(e.snapshot, e.tokens) && InsertedInto(before, after, id, e, budget)
    ensures Sound(after)
  {
    forall j | j in after ensures SnapshotOf(after[j].entry.snapshot, after[j].entry.tokens) {
      assert j == id || j in after - {id};
    }
  }

  // ----- the other users of the cache ------------------------------------------

  /** One operation on the shared cache, a critical section of its own. */
  datatype Use =
    | Look(model: nat, prompt: seq<Token>, limit: nat)
    | Has(model: nat, tokens: seq<Token>)
    | Store(model: nat, tokens: seq<Token>, snap: Snapshot)
    | Wipe

  /** Only the state after exactly the entry's tokens is stored. */
  ghost predicate Honest(u: Use) {
    u.Store? ==> SnapshotOf(u.snap, u.tokens)
  }

  /** Neither too short nor too large. */
  predicate Storable(cache: PromptCache, tokens: seq<Token>, snap: Snapshot) {
    |tokens| >= cache.minTokens && CacheEntry(0, tokens, snap).Bytes() <= cache.budget
  }

  method Perform(cache: PromptCache, u: Use)
    requires CacheOk(cache) && Honest(u)
    modifies cache
    ensures CacheOk(cache) && old(cache.offered) <= cache.offered
    ensures u.Store? ==>
      cache.offered == old(cache.offered) + [Offer(u.model, u.tokens)] &&
      (Storable(cache, u.tokens, u.snap) ==> Present(cache.slots, u.model, u.tokens))
  {
    hide PromptCache.Valid, InsertedInto, LinearScan, Present;
    match u {
      case Look(model, prompt, limit) => var _ := cache.Lookup(model, prompt, limit);
      case Has(model, tokens) => var _ := cache.Contains(model, tokens);
      case Wipe => cache.Clear();
      case Store(model, tokens, snap) =>
        ghost var before, id := cache.slots, cache.nextId;
        var inserted := cache.Insert(model, tokens, snap);
        if inserted {
          SoundAfterInsert(before, cache.slots, id, CacheEntry(model, tokens, snap), cache.budget);
        }
    }
  }

  /** When a request gives other slots the chance to use the cache: before it
      looks for its `check`-th insertion point, and before it inserts its first
      `length` tokens. */
  datatype Moment = Planning(check: nat) | Inserting(length: nat)

  /** What the other slots do meanwhile. */
  type Others = Moment -> seq<Use>

  ghost predicate AllHonest(others: Others) {
    forall m, u | u in others(m) :: Honest(u)
  }

  function Nobody(): Others {
    m => []
  }

  lemma NobodyIsHonest()
    ensures AllHonest(Nobody())
  {
  }

  method Meanwhile(cache: PromptCache, uses: seq<Use>)
    requires CacheOk(cache) && forall u | u in uses :: Honest(u)
    modifies cache
    ensures CacheOk(cache) && old(cache.offered) <= cache.offered
    ensures uses == [] ==> cache.slots == old(cache.slots)
  {
    hide PromptCache.Valid, Sound, Honest, Present;
    for i := 0 to |uses|
      invariant CacheOk(cache) && old(cache.offered) <= cache.offered
      invariant i == 0 ==> cache.slots == old(cache.slots)
    {
      assert uses[i] in uses;
      Perform(cache, uses[i]);
    }
  }

  // ----- reuse of the processed prefix ---------------------------------------------

  /** Length of the longest common prefix. */
  function CommonPrefix(a: seq<Token>, b: seq<Token>): (n: nat)
    ensures n <= |a| && n <= |b| && a[..n] == b[..n]
    ensures n < |a| && n < |b| ==> a[n] != b[n]
  {
    if a == [] || b == [] || a[0] != b[0] then 0
    else
      assert a[1..][..CommonPrefix(a[1..], b[1..])] == a[1..1 + CommonPrefix(a[1..], b[1..])];
      1 + CommonPrefix(a[1..], b[1..])
  }

  /** The state of a generator between requests: it holds `fed`, or nothing is
      known about it and `fed` is empty. */
  ghost predicate Carries(state: ModelState, fed: seq<Token>)
    reads state
  {
    fed != [] ==> state.Holds(fed)
  }

  /** The common prefix, leaving at least one prompt token to prefill. */
  function ReuseTarget(fed: seq<Token>, prompt: seq<Token>): (n: nat)
    requires prompt != []
    ensures n < |prompt| && n <= |fed| && fed[..n] == prompt[..n]
  {
    var lcp := CommonPrefix(fed, prompt);
    var n := if lcp < |prompt| - 1 then lcp else |prompt| - 1;
    assert fed[..n] == fed[..lcp][..n];
    n
  }

  /** The longest reusable prefix the state can roll back to: any for a
      position-indexed cache, else its length or its checkpoint. */
  ghost function Keepable(state: ModelState, fed: seq<Token>, prompt: seq<Token>): nat
    requires prompt != []
    reads state
  {
    var target := ReuseTarget(fed, prompt);
    if target == |fed| || !state.recurrent then target
    else if state.ckpt.Some? && |state.ckpt.value| <= target then |state.ckpt.value|
    else 0
  }

  /** How many leading positions of the state can be kept for `prompt`, rolling
      it back as needed; at least one prompt token is left to prefill. */
  method ReusablePrefix(state: ModelState, fed: seq<Token>, prompt: seq<Token>) returns (keep: nat)
    requires Carries(state, fed) && prompt != []
    modifies state
    ensures keep == old(Keepable(state, fed, prompt))
    ensures keep <= |fed| && keep < |prompt| && fed[..keep] == prompt[..keep]
    ensures keep > 0 ==> state.Holds(prompt[..keep])
  {
    var lcp := CommonPrefix(fed, prompt);
    var target := ReuseTarget(fed, prompt);
    assert fed[..target] == fed[..lcp][..target] == prompt[..target];
    if target == 0 {
      return 0;
    }
    if target == |fed| {
      assert fed[..target] == fed;
      return target;
    }
    assert fed + [] == fed;
    var ok := state.Truncate(target, fed, []);
    if ok {
      return target;
    }
    var cp := state.CheckpointLen();
    if cp.Some? && 0 < cp.value <= target {
      ok := state.Truncate(cp.value, fed, []);
      if ok {
        assert fed[..cp.value] == fed[..target][..cp.value];
        return cp.value;
      }
    }
    return 0;
  }

  predicate Fitting(state: ModelState, e: CacheEntry) {
    e.snapshot.data.shape == state.shape && e.snapshot.data.KvAndRecurrent? == state.recurrent
  }

  /** Restore `e` if it reaches further than `have` positions. */
  method TryRestore(state: ModelState, e: Option<CacheEntry>, have: nat) returns (ok: bool)
    requires e.Some? ==> SnapshotOf(e.value.snapshot, e.value.tokens)
    modifies state
    ensures ok <==> e.Some? && |e.value.tokens| > have && Fitting(state, e.value)
    ensures ok ==> state.Holds(e.value.tokens)
    ensures !ok ==> unchanged(state)
  {
    if e.None? || |e.value.tokens| <= have {
      return false;
    }
    ok := state.Restore(e.value.snapshot, e.value.tokens);
  }

  /** The longest cached proper prefix of `prompt`. */
  ghost function BestCached(cache: PromptCache?, key: nat, prompt: seq<Token>): Option<CacheEntry>
    requires prompt != []
    reads cache
  {
    if cache == null then None
    else
      match LinearScan(cache.slots, key, prompt, |prompt| - 1)
      case None => None
      case Some(id) => Some(cache.slots[id].entry)
  }

  /** How much of the prompt needs no forward: the cached prefix if it fits the
      state and beats what the state can keep, else what the state can keep. */
  ghost function StartLength(key: nat, prompt: seq<Token>, state: ModelState, fed: seq<Token>, cache: PromptCache?,
                             prefixCaching: bool): nat
    requires prompt != []
    reads state, cache
  {
    var keep := if prefixCaching then Keepable(state, fed, prompt) else 0;
    var hit := BestCached(cache, key, prompt);
    if hit.Some? && Fitting(state, hit.value) && |hit.value.tokens| > keep then |hit.value.tokens| else keep
  }

  method CachedPrefix(key: nat, prompt: seq<Token>, cache: PromptCache?) returns (hit: Option<CacheEntry>)
    requires prompt != [] && CacheOk(cache)
    modifies cache
    ensures CacheOk(cache)
    ensures hit == old(BestCached(cache, key, prompt))
    ensures hit.Some? ==> hit.value.tokens < prompt && SnapshotOf(hit.value.snapshot, hit.value.tokens)
  {
    hide PromptCache.Valid;
    if cache == null {
      return None;
    }
    hit := cache.Lookup(key, prompt, |prompt| - 1);
  }

  /** Bring the state to a proper prefix of `prompt`: the longest cached prefix
      when it beats what the state can keep, else what the state can keep, else
      nothing. */
  method StartUp(key: nat, prompt: seq<Token>, state: ModelState, fed0: seq<Token>, cache: PromptCache?,
                 prefixCaching: bool)
    returns (fed: seq<Token>)
    requires Carries(state, fed0) && prompt != [] && CacheOk(cache)
    modifies state, cache
    ensures CacheOk(cache)
    ensures fed < prompt && state.Holds(fed)
    ensures |fed| == old(StartLength(key, prompt, state, fed0, cache, prefixCaching))
  {
    hide PromptCache.Valid, Sound, ModelState.Holds;
    var hit := CachedPrefix(key, prompt, cache);
    var ownMax := 0;
    if prefixCaching {
      ownMax := ReuseTarget(fed0, prompt);
    }
    var restored := TryRestore(state, hit, ownMax);
    if restored {
      return hit.value.tokens;
    }
    var keep := 0;
    if prefixCaching {
      keep := ReusablePrefix(state, fed0, prompt);
    }
    restored := TryRestore(state, hit, keep);
    if restored {
      return hit.value.tokens;
    }
    if keep == 0 {
      state.Reset();
    }
    assert fed0[..keep] == prompt[..keep];
    return fed0[..keep];
  }

  // ----- prefill plan ----------------------------------------------------------------

  predicate Ascending(xs: seq<nat>) {
    forall i, j | 0 <= i < j < |xs| :: xs[i] < xs[j]
  }

  function InsertPoint(x: nat, xs: seq<nat>): (r: seq<nat>)
    requires Ascending(xs)
    ensures Ascending(r) && forall y :: y in r <==> y == x || y in xs
  {
    if xs == [] then [x]
    else if x < xs[0] then [x] + xs
    else if x == xs[0] then xs
    else
      var r := InsertPoint(x, xs[1..]);
      assert forall i | 0 <= i < |r| :: r[i] in r;
      assert forall y | y in xs[1..] :: y in xs && xs[0] < y;
      [xs[0]] + r
  }

  /** Sorted, without duplicates. */
  function SortDedup(xs: seq<nat>): (r: seq<nat>)
    ensures Ascending(r) && forall y :: y in r <==> y in xs
  {
    if xs == [] then [] else InsertPoint(xs[0], SortDedup(xs[1..]))
  }

  /** Boundaries at which a snapshot may be taken. */
  function SnapCandidates(boundaries: seq<nat>, start: nat, end: nat, minTokens: nat): (r: seq<nat>)
    ensures forall b :: b in r <==> b in boundaries && start <= b <= end && b >= minTokens
  {
    if boundaries == [] then []
    else
      var rest := SnapCandidates(boundaries[1..], start, end, minTokens);
      assert boundaries == [boundaries[0]] + boundaries[1..];
      if start <= boundaries[0] <= end && boundaries[0] >= minTokens then [boundaries[0]] + rest else rest
  }

  /** The largest boundary before the end of the prompt, else that end. */
  function CheckpointAt(boundaries: seq<nat>, start: nat, end: nat): (c: nat)
    requires start <= end
    ensures start <= c <= end && (c == end || c in boundaries)
    ensures forall b | b in boundaries && start <= b < end :: c < end && b <= c
  {
    if boundaries == [] then end
    else
      var rest := CheckpointAt(boundaries[1..], start, end);
      assert boundaries == [boundaries[0]] + boundaries[1..];
      var b := boundaries[0];
      if start <= b < end && (rest == end || b > rest) then b else rest
  }

  /** Where prefill pauses, and what it does there. */
  datatype Plan = Plan(pauses: seq<nat>, checkpoint: Option<nat>, snaps: seq<nat>)

  predicate PlanOk(plan: Plan, start: nat, end: nat, recurrent: bool) {
    Ascending(plan.pauses) && end in plan.pauses && (forall p | p in plan.pauses :: start <= p <= end) &&
    (forall b | b in plan.snaps :: start <= b <= end) &&
    (recurrent ==> (forall b | b in plan.snaps :: b in plan.pauses) &&
                   (plan.checkpoint.Some? ==> plan.checkpoint.value in plan.pauses))
  }

  /** A boundary worth caching the prompt up to. */
  predicate Wanted(cache: PromptCache, boundaries: seq<nat>, start: nat, end: nat, b: nat) {
    b in boundaries && start <= b <= end && b >= cache.minTokens
  }

  /** A recurrent state can only be snapshotted or checkpointed at its current
      length, so prefill stops at each of those points. */
  method MakePlan(key: nat, prompt: seq<Token>, boundaries: seq<nat>, start: nat, recurrent: bool,
                  cache: PromptCache?, prefixCaching: bool, others: Others)
    returns (plan: Plan)
    requires start <= |prompt| && CacheOk(cache) && AllHonest(others)
    modifies cache
    ensures CacheOk(cache) && PlanOk(plan, start, |prompt|, recurrent)
    ensures plan.checkpoint == if prefixCaching && recurrent then Some(CheckpointAt(boundaries, start, |prompt|)) else None
    ensures forall p :: p in plan.pauses <==>
      p == |prompt| || (recurrent && (p in plan.snaps || plan.checkpoint == Some(p)))
    ensures cache == null ==> plan.snaps == []
    ensures cache != null ==> forall b | b in plan.snaps :: Wanted(cache, boundaries, start, |prompt|, b)
    ensures cache != null && (forall i: nat :: others(Planning(i)) == []) ==>
      forall b: nat | Wanted(cache, boundaries, start, |prompt|, b) ::
        b in plan.snaps <==> !Present(old(cache.slots), key, prompt[..b])
  {
    hide PromptCache.Valid, AllHonest, Present, Wanted;
    var checkpoint := if prefixCaching && recurrent then Some(CheckpointAt(boundaries, start, |prompt|)) else None;
    var snaps := SnapPoints(key, prompt, boundaries, start, cache, others);
    var pauses := [|prompt|];
    if recurrent {
      pauses := SortDedup(pauses + snaps + if checkpoint.Some? then [checkpoint.value] else []);
    }
    plan := Plan(pauses, checkpoint, snaps);
  }

  /** The boundaries to snapshot at. */
  method SnapPoints(key: nat, prompt: seq<Token>, boundaries: seq<nat>, start: nat, cache: PromptCache?, others: Others)
    returns (snaps: seq<nat>)
    requires start <= |prompt| && CacheOk(cache) && AllHonest(others)
    modifies cache
    ensures CacheOk(cache) && (cache == null ==> snaps == []) && forall b | b in snaps :: start <= b <= |prompt|
    ensures cache != null ==> forall b | b in snaps :: Wanted(cache, boundaries, start, |prompt|, b)
    ensures cache != null && (forall i: nat :: others(Planning(i)) == []) ==>
      forall b: nat | Wanted(cache, boundaries, start, |prompt|, b) ::
        b in snaps <==> !Present(old(cache.slots), key, prompt[..b])
  {
    hide CacheOk, AllHonest, Present;
    snaps := [];
    if cache != null {
      var wanted := SortDedup(SnapCandidates(boundaries, start, |prompt|, cache.minTokens));
      assert forall k | 0 <= k < |wanted| :: wanted[k] in wanted;
      snaps := Missing(key, prompt, wanted, cache, others);
      if forall i: nat :: others(Planning(i)) == [] {
        forall b: nat | Wanted(cache, boundaries, start, |prompt|, b)
          ensures b in snaps <==> !Present(old(cache.slots), key, prompt[..b])
        {
          var k :| 0 <= k < |wanted| && wanted[k] == b;
        }
      }
    }
  }

  /** The insertion points whose prefixes are not cached yet. */
  method Missing(key: nat, prompt: seq<Token>, wanted: seq<nat>, cache: PromptCache, others: Others)
    returns (snaps: seq<nat>)
    requires CacheOk(cache) && AllHonest(others) && forall k | 0 <= k < |wanted| :: wanted[k] <= |prompt|
    modifies cache
    ensures CacheOk(cache) && forall b | b in snaps :: b in wanted
    ensures (forall i: nat :: others(Planning(i)) == []) ==>
      forall k | 0 <= k < |wanted| :: wanted[k] in snaps <==> !Present(old(cache.slots), key, prompt[..wanted[k]])
  {
    hide PromptCache.Valid, Honest, Present;
    snaps := [];
    for i := 0 to |wanted|
      invariant CacheOk(cache) && forall b | b in snaps :: b in wanted[..i] && b in wanted
      invariant (forall i: nat :: others(Planning(i)) == []) ==>
        (forall m, t :: Present(cache.slots, m, t) <==> Present(old(cache.slots), m, t)) &&
        forall k | 0 <= k < i :: wanted[k] in snaps <==> !Present(old(cache.slots), key, prompt[..wanted[k]])
    {
      assert wanted[i] in wanted && wanted[..i + 1] == wanted[..i] + [wanted[i]];
      Meanwhile(cache, others(Planning(i)));
      ghost var before := cache.slots;
      var found := cache.Contains(key, prompt[..wanted[i]]);
      if found {
        RefreshedPresent(before, cache.slots, key, prompt[..wanted[i]], cache.tick);
      }
      if !found {
        snaps := snaps + [wanted[i]];
      }
    }
  }

  /** The entry for the first `n` tokens is neither too short nor too large. */
  predicate Fitted(cache: PromptCache, shape: Shape, recurrent: bool, n: nat) {
    n >= cache.minTokens && SnapshotBytes(shape, recurrent, n) + n * 4 + ENTRY_OVERHEAD <= cache.budget
  }

  /** Cache the first `n` tokens if the state can represent them. */
  method InsertPrefix(key: nat, prompt: seq<Token>, n: nat, state: ModelState, cache: PromptCache?,
                      others: Others, ghost fed: seq<Token>)
    requires CacheOk(cache) && AllHonest(others) && state.Holds(fed) && fed <= prompt && n <= |fed|
    modifies cache
    ensures CacheOk(cache) && (cache != null ==> old(cache.offered) <= cache.offered)
    ensures cache != null && state.Represents(n, |fed|) ==>
      Offer(key, prompt[..n]) in cache.offered[|old(cache.offered)|..] &&
      (Fitted(cache, state.shape, state.recurrent, n) ==> Present(cache.slots, key, prompt[..n]))
  {
    hide PromptCache.Valid, Sound, Present, SnapshotOf;
    if cache == null {
      return;
    }
    var snap := state.TakeSnapshot(n, fed);
    if snap.None? {
      return;
    }
    assert prompt[..n] == fed[..n];
    Meanwhile(cache, others(Inserting(n)));
    ghost var before := cache.offered;
    Perform(cache, Store(key, prompt[..n], snap.value));
    assert cache.offered[|before|] == Offer(key, prompt[..n]);
  }

  /** The prefixes to cache on reaching `at`. */
  function Due(plan: Plan, at: nat, end: nat, recurrent: bool): (r: seq<nat>)
    ensures forall b | b in r :: b in plan.snaps
  {
    if recurrent then (if at in plan.snaps then [at] else []) else if at == end then plan.snaps else []
  }

  /** Everything due was given to the cache since `before`. */
  ghost predicate Given(cache: PromptCache?, before: seq<Offer>, key: nat, prompt: seq<Token>, due: seq<nat>)
    reads cache
  {
    cache != null ==>
      before <= cache.offered &&
      forall b: nat | b in due && b <= |prompt| :: Offer(key, prompt[..b]) in cache.offered[|before|..]
  }

  ghost function OfferedTo(cache: PromptCache?): seq<Offer>
    reads cache
  {
    if cache == null then [] else cache.offered
  }

  /** What prefill does on reaching a pause. */
  method AtPause(key: nat, prompt: seq<Token>, plan: Plan, fed: seq<Token>, state: ModelState, cache: PromptCache?,
                 others: Others)
    requires CacheOk(cache) && AllHonest(others) && state.Holds(fed) && fed <= prompt
    requires forall b | b in plan.snaps :: b <= |prompt|
    modifies state, cache
    ensures CacheOk(cache) && state.Holds(fed)
    ensures state.ckpt == if plan.checkpoint == Some(|fed|) && state.recurrent then Some(fed) else old(state.ckpt)
    ensures Given(cache, old(OfferedTo(cache)), key, prompt, Due(plan, |fed|, |prompt|, state.recurrent))
  {
    hide PromptCache.Valid, Sound, AllHonest, Present, ModelState.Holds;
    if plan.checkpoint == Some(|fed|) {
      state.Checkpoint(fed);
    }
    if state.recurrent {
      if |fed| in plan.snaps {
        InsertPrefix(key, prompt, |fed|, state, cache, others, fed);
      }
    } else if |fed| == |prompt| {
      ghost var before := OfferedTo(cache);
      for i := 0 to |plan.snaps|
        invariant CacheOk(cache) && state.Holds(fed)
        invariant state.ckpt == old(state.ckpt) && Given(cache, before, key, prompt, plan.snaps[..i])
      {
        assert plan.snaps[i] in plan.snaps && plan.snaps[..i + 1] == plan.snaps[..i] + [plan.snaps[i]];
        ghost var sofar := OfferedTo(cache);
        assert cache != null ==>
          forall b: nat | b in plan.snaps[..i] && b <= |prompt| :: Offer(key, prompt[..b]) in sofar[|before|..];
        InsertPrefix(key, prompt, plan.snaps[i], state, cache, others, fed);
        GivenMore(cache, before, sofar, key, prompt, plan.snaps[..i], plan.snaps[i]);
      }
      assert plan.snaps[..|plan.snaps|] == plan.snaps;
    }
  }

  lemma GivenMore(cache: PromptCache?, before: seq<Offer>, sofar: seq<Offer>, key: nat, prompt: seq<Token>,
                  due: seq<nat>, n: nat)
    requires n <= |prompt| && (cache != null ==> before <= sofar <= cache.offered)
    requires cache != null ==>
      forall b: nat | b in due && b <= |prompt| :: Offer(key, prompt[..b]) in sofar[|before|..]
    requires cache != null ==> Offer(key, prompt[..n]) in cache.offered[|sofar|..]
    ensures Given(cache, before, key, prompt, due + [n])
  {
    if cache != null {
      assert cache.offered[|before|..] == sofar[|before|..] + cache.offered[|sofar|..];
    }
  }

  /** All that is due at the first `i` pauses was given to the cache. */
  ghost predicate GivenBy(cache: PromptCache?, before: seq<Offer>, offered: seq<Offer>, key: nat, prompt: seq<Token>,
                          plan: Plan, recurrent: bool, i: nat)
    requires i <= |plan.pauses|
  {
    cache != null ==>
      before <= offered &&
      forall b: nat | b in plan.snaps && b <= |prompt| && (if recurrent then b else |prompt|) in plan.pauses[..i] ::
        Offer(key, prompt[..b]) in offered[|before|..]
  }

  lemma NothingDue(cache: PromptCache?, before: seq<Offer>, key: nat, prompt: seq<Token>, plan: Plan, recurrent: bool)
    ensures GivenBy(cache, before, before, key, prompt, plan, recurrent, 0)
  {
  }

  lemma GivenNext(cache: PromptCache?, before: seq<Offer>, sofar: seq<Offer>, key: nat, prompt: seq<Token>, plan: Plan,
                  recurrent: bool, i: nat)
    requires i < |plan.pauses| && GivenBy(cache, before, sofar, key, prompt, plan, recurrent, i)
    requires Given(cache, sofar, key, prompt, Due(plan, plan.pauses[i], |prompt|, recurrent))
    ensures GivenBy(cache, before, OfferedTo(cache), key, prompt, plan, recurrent, i + 1)
  {
    assert plan.pauses[..i + 1] == plan.pauses[..i] + [plan.pauses[i]];
    if cache != null {
      assert cache.offered[|before|..] == sofar[|before|..] + cache.offered[|sofar|..];
    }
  }

  lemma GivenAtEnd(cache: PromptCache?, before: seq<Offer>, key: nat, prompt: seq<Token>, plan: Plan, recurrent: bool)
    requires GivenBy(cache, before, OfferedTo(cache), key, prompt, plan, recurrent, |plan.pauses|)
    requires |prompt| in plan.pauses && (recurrent ==> forall b | b in plan.snaps :: b in plan.pauses)
    ensures Given(cache, before, key, prompt, plan.snaps)
  {
    assert plan.pauses[..|plan.pauses|] == plan.pauses;
  }

  function LastCut(start: nat, cuts: seq<nat>): nat {
    if cuts == [] then start else cuts[|cuts| - 1]
  }

  /** Every forward takes a chunk of the configured size, at least one token, or
      a shorter one that ends at a pause. */
  ghost predicate InChunks(start: nat, cuts: seq<nat>, chunk: nat, pauses: seq<nat>) {
    forall i | 0 <= i < |cuts| ::
      var p := LastCut(start, cuts[..i]);
      p < cuts[i] && (cuts[i] == p + 1 || cuts[i] <= p + chunk) && (cuts[i] in pauses || cuts[i] >= p + chunk)
  }

  lemma NoChunks(start: nat, chunk: nat, pauses: seq<nat>)
    ensures InChunks(start, [], chunk, pauses)
  {
  }

  lemma OneMoreChunk(start: nat, cuts: seq<nat>, chunk: nat, pauses: seq<nat>, n: nat)
    requires InChunks(start, cuts, chunk, pauses)
    requires var p := LastCut(start, cuts);
      p < n && (n == p + 1 || n <= p + chunk) && (n in pauses || n >= p + chunk)
    ensures InChunks(start, cuts + [n], chunk, pauses)
  {
    var more := cuts + [n];
    forall i | 0 <= i < |more| ensures more[..i] == cuts[..i] {
    }
    assert cuts[..|cuts|] == cuts;
  }

  /** Feed the prompt in chunks, pausing where planned. Returns the logits of
      the last prompt token; they do not depend on the chunks. */
  method Prefill(q: Request, plan: Plan, state: ModelState, fed0: seq<Token>, cache: PromptCache?,
                 others: Others)
    returns (logits: Option<Logits>, ghost cuts: seq<nat>)
    requires CacheOk(cache) && AllHonest(others) && state.Holds(fed0) && fed0 < q.prompt && |q.prompt| <= q.env.maxSeq
    requires PlanOk(plan, |fed0|, |q.prompt|, state.recurrent)
    modifies state, cache
    ensures CacheOk(cache)
    ensures logits.None? ==> ForwardUnsure(q)
    ensures logits.Some? ==> state.Holds(q.prompt) && logits.value == Logit(q.env.compute, q.prompt)
    ensures logits.Some? ==> Given(cache, old(OfferedTo(cache)), q.env.key, q.prompt, plan.snaps)
    ensures logits.Some? && state.recurrent && plan.checkpoint.Some? ==>
      state.ckpt == Some(q.prompt[..plan.checkpoint.value])
    ensures InChunks(|fed0|, cuts, q.params.prefillChunk, plan.pauses)
    ensures logits.Some? ==> LastCut(|fed0|, cuts) == |q.prompt|
  {
    hide PromptCache.Valid, Sound, AllHonest, ModelState.Holds, ForwardUnsure, Given, Due, InChunks;
    logits, cuts := Some([]), [];
    NoChunks(|fed0|, q.params.prefillChunk, plan.pauses);
    var fed := fed0;
    ghost var before := OfferedTo(cache);
    NothingDue(cache, before, q.env.key, q.prompt, plan, state.recurrent);
    for i := 0 to |plan.pauses|
      invariant GivenBy(cache, before, OfferedTo(cache), q.env.key, q.prompt, plan, state.recurrent, i)
      invariant state.recurrent && plan.checkpoint.Some? && plan.checkpoint.value in plan.pauses[..i] ==>
        state.ckpt == Some(q.prompt[..plan.checkpoint.value])
      invariant CacheOk(cache) && state.Holds(fed) && fed0 <= fed <= q.prompt
      invariant |fed| == if i == 0 then |fed0| else plan.pauses[i - 1]
      invariant logits.Some? && (|fed| > |fed0| ==> logits.value == Logit(q.env.compute, fed))
      invariant InChunks(|fed0|, cuts, q.params.prefillChunk, plan.pauses) && LastCut(|fed0|, cuts) == |fed|
    {
      var end := plan.pauses[i];
      assert end in plan.pauses;
      logits, fed, cuts := PrefillTo(q, end, state, fed0, fed, logits.value, plan.pauses, cuts);
      if logits.None? {
        return;
      }
      ghost var sofar := OfferedTo(cache);
      AtPause(q.env.key, q.prompt, plan, fed, state, cache, others);
      GivenNext(cache, before, sofar, q.env.key, q.prompt, plan, state.recurrent, i);
      assert plan.pauses[..i + 1] == plan.pauses[..i] + [plan.pauses[i]];
    }
    assert plan.pauses[..|plan.pauses|] == plan.pauses;
    GivenAtEnd(cache, before, q.env.key, q.prompt, plan, state.recurrent);
    LastPause(plan.pauses, |q.prompt|);
    assert fed == q.prompt;
  }

  lemma LastPause(xs: seq<nat>, end: nat)
    requires Ascending(xs) && end in xs && forall p | p in xs :: p <= end
    ensures xs[|xs| - 1] == end
  {
    var i :| 0 <= i < |xs| && xs[i] == end;
    assert xs[|xs| - 1] in xs;
  }

  method PrefillTo(q: Request, end: nat, state: ModelState, ghost fed0: seq<Token>, from: seq<Token>, last: Logits,
                   ghost pauses: seq<nat>, ghost before: seq<nat>)
    returns (logits: Option<Logits>, fed: seq<Token>, ghost cuts: seq<nat>)
    requires InChunks(|fed0|, before, q.params.prefillChunk, pauses) && LastCut(|fed0|, before) == |from| && end in pauses
    requires state.Holds(from) && fed0 <= from <= q.prompt && |from| <= end <= |q.prompt| <= q.env.maxSeq
    requires |from| > |fed0| ==> last == Logit(q.env.compute, from)
    modifies state
    ensures logits.None? ==> ForwardUnsure(q)
    ensures logits.Some? ==> state.ckpt == old(state.ckpt)
    ensures logits.Some? ==> fed == q.prompt[..end] && state.Holds(fed) && fed0 <= fed
    ensures logits.Some? && |fed| > |fed0| ==> logits.value == Logit(q.env.compute, fed)
    ensures InChunks(|fed0|, cuts, q.params.prefillChunk, pauses) && (logits.Some? ==> LastCut(|fed0|, cuts) == |fed|)
  {
    hide ModelState.Holds, InChunks;
    cuts := before;
    var chunk := if q.params.prefillChunk < 1 then 1 else q.params.prefillChunk;
    logits, fed := Some(last), from;
    while |fed| < end
      invariant logits.Some? && state.Holds(fed) && fed0 <= fed <= q.prompt && |fed| <= end && state.ckpt == old(state.ckpt)
      invariant |fed| > |fed0| ==> logits.value == Logit(q.env.compute, fed)
      invariant InChunks(|fed0|, cuts, q.params.prefillChunk, pauses) && LastCut(|fed0|, cuts) == |fed|
    {
      var n := if |fed| + chunk <= end then |fed| + chunk else end;
      var piece := q.prompt[|fed|..n];
      var all := state.Forward(q.env.compute, q.env.sure, piece, |fed|, false, q.env.maxSeq, fed);
      if all.None? {
        assert fed + piece == q.prompt[..n] && Concerns(q, fed, piece);
        return None, fed, cuts;
      }
      assert piece[..|piece|] == piece;
      assert fed + piece == q.prompt[..n];
      logits := Some(all.value[|piece| - 1]);
      fed := fed + piece;
      OneMoreChunk(|fed0|, cuts, q.params.prefillChunk, pauses, n);
      cuts := cuts + [n];
    }
    assert q.prompt[..end] == fed;
  }

  // ----- a request -------------------------------------------------------------------

  datatype Reply =
    | EmptyPrompt
    | ContextOverflow
    | Failed(forward: bool)
    | Done(output: Output)

  /** An empty prompt stands for the BOS token. */
  function Normalized(env: Env, prompt: seq<Token>): seq<Token> {
    if prompt == [] && env.bos.Some? then [env.bos.value] else prompt
  }

  function NoTokens(): Output {
    Output([], "", "", [], Length, None, 0)
  }

  /** The reply to a request alone: a fresh state, no cache, one token per
      forward, no forward failing. */
  ghost function ReplyAlone(q: Request): Reply {
    if q.prompt == [] then EmptyPrompt
    else if |q.prompt| + q.params.maxTokens > q.env.maxSeq then ContextOverflow
    else if q.params.maxTokens == 0 then Done(NoTokens())
    else
      match Solo(q)
      case RequestFails => Failed(false)
      case Completed(output, _) => Done(output)
  }

  /** An empty prompt is refused exactly without a BOS token, otherwise it is the
      prompt of that token; any other prompt is taken as it is. A request for no
      tokens gets none, and has its length. */
  lemma PromptMeans(env: Env, prompt: seq<Token>, params: Params, inReasoning: bool, breaks: seq<Piece> -> bool)
    ensures var q := Request(env, Normalized(env, prompt), params, inReasoning, breaks);
      (ReplyAlone(q) == EmptyPrompt <==> prompt == [] && env.bos.None?) && (prompt != [] ==> q.prompt == prompt) &&
      (prompt == [] && env.bos.Some? ==> Normalized(env, [env.bos.value]) == q.prompt) &&
      (ReplyAlone(q) == ContextOverflow <==> q.prompt != [] && |q.prompt| + params.maxTokens > env.maxSeq) &&
      (params.maxTokens == 0 && ReplyAlone(q).Done? ==>
        var o := ReplyAlone(q).output;
        o.tokens == [] && o.text == o.reasoning == "" && o.delivered == [] && o.finish == Length && o.stop == None &&
        o.completion == 0)
  {
    hide Solo;
  }

  datatype Speculation = Speculation(drafter: Drafter, adapt: nat -> nat)

  /** The request asks for tokens that fit the model. */
  predicate Decodes(q: Request) {
    q.prompt != [] && |q.prompt| + q.params.maxTokens <= q.env.maxSeq && q.params.maxTokens > 0
  }

  ghost predicate OverreachesFor(q: Request, spec: Option<Speculation>) {
    spec.Some? && SpecOverreaches(q, q.prompt, FirstProgress(q), spec.value.drafter, spec.value.adapt)
  }

  /** The reply when no forward fails: that of the request alone, unless
      speculation verifies a row it cannot use. */
  ghost function ReplyTo(q: Request, spec: Option<Speculation>): Reply {
    if Decodes(q) && OverreachesFor(q, spec) then Failed(false) else ReplyAlone(q)
  }

  lemma ReplyToIsAlone(q: Request, spec: Option<Speculation>)
    requires spec.None? || SamplesAlways(q.env)
    ensures ReplyTo(q, spec) == ReplyAlone(q)
  {
    hide ReplyAlone, SpecOverreaches, SamplesAlways;
    if spec.Some? {
      NoOverreach(q, q.prompt, FirstProgress(q), spec.value.drafter, spec.value.adapt);
    }
  }

  /** A generator of one model, reused for request after request. */
  class Generator {
    const env: Env
    const recurrent: bool
    const shape: Shape
    const prefixCaching: bool
    const cache: PromptCache?
    var state: ModelState?
    /** What `state` holds; empty if the state is unusable. */
    var fed: seq<Token>

    ghost predicate Valid()
      reads this, state
    {
      fed != [] ==> state != null && Carries(state, fed)
    }

    constructor (env: Env, recurrent: bool, shape: Shape, prefixCaching: bool, cache: PromptCache?)
      ensures Valid() && this.cache == cache && this.env == env && state == null
    {
      this.env := env;
      this.recurrent := recurrent;
      this.shape := shape;
      this.prefixCaching := prefixCaching;
      this.cache := cache;
      state := null;
      fed := [];
    }

    /** Generate. Unless a forward of the request fails, the reply is that of the
        request alone: whatever the state and the cache held before, whatever
        the other slots did to the cache meanwhile, wherever prefill paused, and
        whatever a drafter proposed, if it leads to no row that cannot be used. */
    method Generate(prompt: seq<Token>, params: Params, inReasoning: bool, breaks: seq<Piece> -> bool,
                    boundaries: seq<nat>, spec: Option<Speculation>, others: Others)
      returns (reply: Reply)
      requires Valid() && CacheOk(cache) && AllHonest(others)
      requires spec.Some? ==> params.sampling.Greedy?
      modifies this, state, cache
      ensures Valid() && CacheOk(cache)
      ensures state == old(state) || (state != null && fresh(state))
      ensures var q := Request(env, Normalized(env, prompt), params, inReasoning, breaks);
        reply == ReplyTo(q, spec) || (reply == Failed(true) && ForwardUnsure(q))
      ensures reply.Done? && params.maxTokens > 0 ==>
        Solo(Request(env, Normalized(env, prompt), params, inReasoning, breaks)) == Completed(reply.output, fed)
    {
      hide PromptCache.Valid, Sound, AllHonest, ModelState.Holds, Resume, ForwardUnsure, Finalize, OverreachesFor;
      var q := Request(env, Normalized(env, prompt), params, inReasoning, breaks);
      if q.prompt == [] {
        return EmptyPrompt;
      }
      if |q.prompt| + params.maxTokens > env.maxSeq {
        return ContextOverflow;
      }
      if params.maxTokens == 0 {
        return Done(NoTokens());
      }
      var was := fed;
      fed := [];
      var s: ModelState;
      if state == null {
        s := new ModelState(recurrent, shape);
        was := [];
      } else {
        s := state;
      }
      state := s;
      var kept := StartUp(env.key, q.prompt, s, was, cache, prefixCaching);
      var plan := MakePlan(env.key, q.prompt, boundaries, |kept|, s.recurrent, cache, prefixCaching, others);
      var logits, _ := Prefill(q, plan, s, kept, cache, others);
      if logits.None? {
        return Failed(true);
      }
      var held: seq<Token>;
      reply, held := DecodeRequest(q, s, logits.value, spec);
      if reply.Done? {
        fed := held;
      }
    }
  }

  lemma WrongSize(q: Request)
    requires |Logit(q.env.compute, q.prompt)| != q.env.vocab
    ensures Solo(q) == RequestFails
  {
  }

  /** Decode from the logits of the last prompt token. */
  method DecodeRequest(q: Request, state: ModelState, logits: Logits, spec: Option<Speculation>)
    returns (reply: Reply, fed: seq<Token>)
    requires state.Holds(q.prompt) && Fits(q) && logits == Logit(q.env.compute, q.prompt)
    requires spec.Some? ==> q.params.sampling.Greedy?
    modifies state
    ensures reply.Done? ==> Solo(q) == Completed(reply.output, fed) && state.Holds(fed)
    ensures reply.Done? ==> !OverreachesFor(q, spec)
    ensures reply == Failed(false) ==> Solo(q) == RequestFails || OverreachesFor(q, spec)
    ensures reply == Failed(true) ==> ForwardUnsure(q)
    ensures reply.Done? || reply.Failed?
  {
    hide ModelState.Holds, ForwardUnsure, SpecOverreaches, Resume;
    fed := q.prompt;
    if |logits| != q.env.vocab {
      WrongSize(q);
      return Failed(false), fed;
    }
    var em := new Emitter(q);
    var r: Decoded;
    if spec.Some? {
      r, fed := SpecDecode(q, em, state, fed, logits, spec.value.drafter, spec.value.adapt);
    } else {
      r, fed := DecodePlain(q, em, state, fed, logits);
    }
    match r {
      case ForwardFailed => return Failed(true), fed;
      case Erred => return Failed(false), fed;
      case Finished(f) =>
        var output := em.Complete(fed, f);
        reply := if output.None? then Failed(false) else Done(output.value);
    }
  }

  // ----- any history of requests --------------------------------------------------------

  datatype Job = Job(slot: nat, prompt: seq<Token>, params: Params, inReasoning: bool, breaks: seq<Piece> -> bool,
                     boundaries: seq<nat>, spec: Option<Speculation>)

  /** One generator per slot, each with its own state. */
  ghost predicate Separate(gens: seq<Generator>)
    reads gens
  {
    forall i, j | 0 <= i < j < |gens| ::
      gens[i] != gens[j] && (gens[i].state == null || gens[i].state != gens[j].state)
  }

  ghost predicate AllValid(gens: seq<Generator>, cache: PromptCache?)
    reads gens, set i | 0 <= i < |gens| :: gens[i].state
  {
    forall i | 0 <= i < |gens| :: gens[i].Valid() && gens[i].cache == cache
  }

  /** The request as if it were the only one ever made. */
  function RequestOf(env: Env, job: Job): Request {
    Request(env, Normalized(env, job.prompt), job.params, job.inReasoning, job.breaks)
  }

  ghost predicate Answers(env: Env, job: Job, reply: Reply) {
    reply == ReplyTo(RequestOf(env, job), job.spec) || (reply == Failed(true) && ForwardUnsure(RequestOf(env, job)))
  }

  /** Serve any sequence of requests on slots that share one prompt cache, other
      users of the cache interfering during each: unless a forward of its own
      fails, a reply is that of the request alone, or names the failure of a row
      that only speculation verified. */
  method Serve(env: Env, gens: seq<Generator>, cache: PromptCache?, jobs: seq<Job>, others: nat -> Others)
    returns (replies: seq<Reply>)
    requires Separate(gens) && AllValid(gens, cache) && CacheOk(cache)
    requires (forall i | 0 <= i < |gens| :: gens[i].env == env) && forall k :: AllHonest(others(k))
    requires forall j | j in jobs :: j.slot < |gens| && (j.spec.Some? ==> j.params.sampling.Greedy?)
    modifies gens, set i | 0 <= i < |gens| :: gens[i].state
    modifies cache
    ensures Separate(gens) && AllValid(gens, cache) && CacheOk(cache)
    ensures |replies| == |jobs| && forall k | 0 <= k < |jobs| :: Answers(env, jobs[k], replies[k])
    ensures ForwardsSure(env) && SamplesAlways(env) ==>
      forall k | 0 <= k < |jobs| :: replies[k] == ReplyAlone(RequestOf(env, jobs[k]))
  {
    hide CacheOk, AllHonest, ModelState.Holds, ReplyTo, ReplyAlone, SamplesAlways, ForwardsSure, ForwardUnsure;
    replies := [];
    for k := 0 to |jobs|
      invariant Separate(gens) && AllValid(gens, cache) && CacheOk(cache)
      invariant forall i | 0 <= i < |gens| ::
        gens[i].state == null || fresh(gens[i].state) || gens[i].state == old(gens[i].state)
      invariant |replies| == k && forall i | 0 <= i < k :: Answers(env, jobs[i], replies[i])
    {
      var j := jobs[k];
      assert j in jobs;
      label before:
      var reply := gens[j.slot].Generate(j.prompt, j.params, j.inReasoning, j.breaks, j.boundaries, j.spec, others(k));
      assert forall i | 0 <= i < |gens| && i != j.slot :: gens[i].state == old@before(gens[i].state);
      forall i | 0 <= i < |gens| && i != j.slot ensures gens[i].Valid() {
        assert old@before(gens[i].Valid());
      }
      replies := replies + [reply];
    }
    if ForwardsSure(env) && SamplesAlways(env) {
      forall k | 0 <= k < |jobs| ensures replies[k] == ReplyAlone(RequestOf(env, jobs[k])) {
        assert Answers(env, jobs[k], replies[k]);
        ReplyToIsAlone(RequestOf(env, jobs[k]), jobs[k].spec);
        NothingUnsure(RequestOf(env, jobs[k]));
      }
    }
  }
}
