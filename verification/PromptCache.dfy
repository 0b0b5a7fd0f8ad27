/** The shared prompt cache: an LRU of token-prefix snapshots with a byte
    budget, found through an index of chained block hashes. Nothing is assumed
    about the hash functions. */
module PromptCaches {
  import opened Wrappers
  import opened States

  type Key = nat
  type Id = nat

  const BLOCK: nat := 64
  const ENTRY_OVERHEAD: nat := 256

  datatype Hasher = Hasher(seed: nat -> Key, chain: (Key, seq<Token>) -> Key)

  datatype CacheEntry = CacheEntry(model: nat, tokens: seq<Token>, snapshot: Snapshot) {
    function Bytes(): nat {
      snapshot.bytes + |tokens| * 4 + ENTRY_OVERHEAD
    }
  }

  /** Something given to the cache to keep. */
  datatype Offer = Offer(model: nat, tokens: seq<Token>)

  datatype Slot = Slot(entry: CacheEntry, lastUsed: nat, keys: seq<Key>)

  type Slots = map<Id, Slot>

  // ----- block keys ----------------------------------------------------------

  /** Chained hashes of the first `n` blocks of `tokens`. */
  function KeysUpTo(h: Hasher, model: nat, tokens: seq<Token>, n: nat): (r: seq<Key>)
    requires n * BLOCK <= |tokens|
    ensures |r| == n
  {
    if n == 0 then []
    else
      var prev := KeysUpTo(h, model, tokens, n - 1);
      prev + [h.chain(if n == 1 then h.seed(model) else prev[n - 2], tokens[(n - 1) * BLOCK..n * BLOCK])]
  }

  function BlockKeys(h: Hasher, model: nat, tokens: seq<Token>): (r: seq<Key>)
    ensures |r| == |tokens| / BLOCK
  {
    KeysUpTo(h, model, tokens, |tokens| / BLOCK)
  }

  /** Fewer blocks, or blocks of a longer text, have the same keys. */
  lemma {:induction false} KeysAgree(h: Hasher, model: nat, a: seq<Token>, b: seq<Token>, m: nat, n: nat)
    requires a <= b && m * BLOCK <= |a| && m <= n && n * BLOCK <= |b|
    ensures KeysUpTo(h, model, a, m) == KeysUpTo(h, model, b, n)[..m]
  {
    if n > m {
      KeysAgree(h, model, a, b, m, n - 1);
    } else if n > 0 {
      KeysAgree(h, model, a, b, m - 1, n - 1);
      assert a[(m - 1) * BLOCK..m * BLOCK] == b[(m - 1) * BLOCK..m * BLOCK];
    }
  }

  lemma PrefixKeys(h: Hasher, model: nat, a: seq<Token>, b: seq<Token>)
    requires a <= b
    ensures BlockKeys(h, model, a) <= BlockKeys(h, model, b)
  {
    KeysAgree(h, model, a, b, |a| / BLOCK, |b| / BLOCK);
  }

  // ----- charges ---------------------------------------------------------------

  ghost function SumBytes(slots: Slots): nat {
    if slots == map[] then 0
    else
      var id :| id in slots;
      slots[id].entry.Bytes() + SumBytes(slots - {id})
  }

  lemma {:induction false} SumBytesRemove(slots: Slots, id: Id)
    requires id in slots
    ensures SumBytes(slots) == slots[id].entry.Bytes() + SumBytes(slots - {id})
    decreases |slots|
  {
    var other :| other in slots && SumBytes(slots) == slots[other].entry.Bytes() + SumBytes(slots - {other});
    if other != id {
      SumBytesRemove(slots - {other}, id);
      SumBytesRemove(slots - {id}, other);
      assert slots - {other} - {id} == slots - {id} - {other};
    }
  }

  lemma SumBytesAdd(slots: Slots, id: Id, slot: Slot)
    requires id !in slots
    ensures SumBytes(slots[id := slot]) == SumBytes(slots) + slot.entry.Bytes()
  {
    SumBytesRemove(slots[id := slot], id);
    assert slots[id := slot] - {id} == slots;
  }

  lemma SumBytesTouch(slots: Slots, id: Id, tick: nat)
    requires id in slots
    ensures SumBytes(slots[id := slots[id].(lastUsed := tick)]) == SumBytes(slots)
  {
    var after := slots[id := slots[id].(lastUsed := tick)];
    SumBytesRemove(after, id);
    SumBytesRemove(slots, id);
    assert after - {id} == slots - {id};
  }

  /** The snapshots held, four bytes a token, and 256 bytes an entry. */
  ghost function HeldBytes(slots: Slots): nat {
    if slots == map[] then 0
    else
      var id :| id in slots;
      slots[id].entry.snapshot.bytes + 4 * |slots[id].entry.tokens| + 256 + HeldBytes(slots - {id})
  }

  /** That is what the budget bounds. */
  lemma {:induction false} HeldIsCharged(slots: Slots)
    ensures HeldBytes(slots) == SumBytes(slots)
    decreases |slots|
  {
    if slots != map[] {
      var id :| id in slots &&
        HeldBytes(slots) == slots[id].entry.snapshot.bytes + 4 * |slots[id].entry.tokens| + 256 + HeldBytes(slots - {id});
      HeldIsCharged(slots - {id});
      SumBytesRemove(slots, id);
    }
  }

  // ----- specification ----------------------------------------------------------

  /** An entry of `model` that is a prefix of `prompt`, at most `maxLen` long. */
  predicate Usable(e: CacheEntry, model: nat, prompt: seq<Token>, maxLen: nat) {
    e.model == model && |e.tokens| <= maxLen && e.tokens <= prompt
  }

  ghost predicate IsLongest(slots: Slots, model: nat, prompt: seq<Token>, maxLen: nat, id: Id) {
    id in slots && Usable(slots[id].entry, model, prompt, maxLen) &&
    forall j | j in slots && Usable(slots[j].entry, model, prompt, maxLen) ::
      |slots[j].entry.tokens| <= |slots[id].entry.tokens|
  }

  /** Reference: a linear scan for the longest usable entry. */
  ghost function LinearScan(slots: Slots, model: nat, prompt: seq<Token>, maxLen: nat): (r: Option<Id>)
    ensures r.Some? ==> IsLongest(slots, model, prompt, maxLen, r.value)
    ensures r.None? ==> forall id :: !IsLongest(slots, model, prompt, maxLen, id)
  {
    if id :| IsLongest(slots, model, prompt, maxLen, id) then Some(id) else None
  }

  ghost predicate IsOldest(slots: Slots, id: Id) {
    id in slots && forall j | j in slots :: slots[id].lastUsed <= slots[j].lastUsed
  }

  /** Reference: drop least recently used entries until `need` more bytes fit. */
  ghost function Evict(slots: Slots, need: nat, budget: nat): (r: Slots)
    decreases |slots|
  {
    if SumBytes(slots) + need <= budget then slots
    else if id :| IsOldest(slots, id) then Evict(slots - {id}, need, budget)
    else slots
  }

  ghost predicate DistinctUse(slots: Slots) {
    forall i, j | i in slots && j in slots && slots[i].lastUsed == slots[j].lastUsed :: i == j
  }

  ghost predicate DistinctTokens(slots: Slots) {
    forall i, j | i in slots && j in slots && slots[i].entry.model == slots[j].entry.model &&
      slots[i].entry.tokens == slots[j].entry.tokens :: i == j
  }

  /** Every slot is well formed. */
  ghost predicate SlotsOk(h: Hasher, minTokens: nat, slots: Slots, nextId: nat, tick: nat) {
    forall id | id in slots ::
      id < nextId && slots[id].lastUsed <= tick &&
      slots[id].keys == BlockKeys(h, slots[id].entry.model, slots[id].entry.tokens) &&
      |slots[id].entry.tokens| >= minTokens && slots[id].entry.snapshot.len == |slots[id].entry.tokens|
  }

  /** The index lists exactly the live entries, exactly under their keys. */
  ghost predicate Indexed(slots: Slots, index: map<Key, seq<Id>>) {
    (forall k | k in index :: index[k] != []) &&
    (forall k, id :: ListedUnder(index, k, id) <==> id in slots && k in slots[id].keys)
  }

  predicate ListedUnder(index: map<Key, seq<Id>>, k: Key, id: Id) {
    k in index && id in index[k]
  }

  /** The short list names exactly the live entries without a complete block. */
  ghost predicate ShortListed(slots: Slots, short: seq<Id>) {
    forall id :: id in short <==> id in slots && slots[id].keys == []
  }

  lemma {:induction false} OldestExists(slots: Slots)
    requires slots != map[]
    ensures exists id :: IsOldest(slots, id)
    decreases |slots|
  {
    var id :| id in slots;
    var rest := slots - {id};
    if rest == map[] {
      assert forall j | j in slots :: j == id || j in rest;
      assert IsOldest(slots, id);
    } else {
      OldestExists(rest);
      var o :| IsOldest(rest, o);
      assert forall j | j in slots :: j == id || j in rest;
      assert IsOldest(slots, if slots[id].lastUsed <= slots[o].lastUsed then id else o);
    }
  }

  /** The linear scan is unambiguous: two usable entries of the same length
      hold the same tokens. */
  lemma LongestUnique(slots: Slots, model: nat, prompt: seq<Token>, maxLen: nat, id: Id)
    requires DistinctTokens(slots) && IsLongest(slots, model, prompt, maxLen, id)
    ensures LinearScan(slots, model, prompt, maxLen) == Some(id)
  {
    var j := LinearScan(slots, model, prompt, maxLen).value;
    assert slots[j].entry.tokens == slots[id].entry.tokens;
  }

  lemma {:induction false} LongestExists(slots: Slots, model: nat, prompt: seq<Token>, maxLen: nat)
    ensures (exists id :: IsLongest(slots, model, prompt, maxLen, id)) ||
      forall id | id in slots :: !Usable(slots[id].entry, model, prompt, maxLen)
    decreases |slots|
  {
    if id :| id in slots && Usable(slots[id].entry, model, prompt, maxLen) {
      var rest := slots - {id};
      LongestExists(rest, model, prompt, maxLen);
      assert forall j | j in slots :: j == id || (j in rest && rest[j] == slots[j]);
      if o :| IsLongest(rest, model, prompt, maxLen, o) {
        var best := if |slots[id].entry.tokens| >= |slots[o].entry.tokens| then id else o;
        assert IsLongest(slots, model, prompt, maxLen, best);
      } else {
        assert forall j | j in slots && j != id :: j in rest && !Usable(rest[j].entry, model, prompt, maxLen);
        assert IsLongest(slots, model, prompt, maxLen, id);
      }
    }
  }

  /** The scan finds an entry of the model that is a prefix of the prompt within
      the limit, the whole limit included, and no such entry is longer. */
  lemma ScanMeans(slots: Slots, model: nat, prompt: seq<Token>, maxLen: nat)
    ensures var r := LinearScan(slots, model, prompt, maxLen);
      (r.Some? ==>
        r.value in slots && slots[r.value].entry.model == model && slots[r.value].entry.tokens <= prompt &&
        |slots[r.value].entry.tokens| <= maxLen) &&
      forall id | id in slots && slots[id].entry.model == model && slots[id].entry.tokens <= prompt ::
        |slots[id].entry.tokens| > maxLen || (r.Some? && |slots[id].entry.tokens| <= |slots[r.value].entry.tokens|)
  {
    LongestExists(slots, model, prompt, maxLen);
  }

  lemma OldestUnique(slots: Slots, a: Id, b: Id)
    requires DistinctUse(slots) && IsOldest(slots, a) && IsOldest(slots, b)
    ensures a == b
  {
    assert slots[a].lastUsed == slots[b].lastUsed;
  }

  // ----- why the index finds what a scan finds ------------------------------------

  /** The keys of a usable entry are the first keys of the prompt. */
  lemma UsableKeys(h: Hasher, minTokens: nat, slots: Slots, nextId: nat, tick: nat,
                   model: nat, prompt: seq<Token>, maxLen: nat, id: Id)
    requires SlotsOk(h, minTokens, slots, nextId, tick)
    requires id in slots && Usable(slots[id].entry, model, prompt, maxLen) && maxLen <= |prompt|
    ensures slots[id].keys <= BlockKeys(h, model, prompt[..maxLen])
    ensures |slots[id].keys| == |slots[id].entry.tokens| / BLOCK
  {
    PrefixKeys(h, model, slots[id].entry.tokens, prompt[..maxLen]);
  }

  /** A usable entry at least as long as another is listed wherever that one
      is. */
  lemma LongerIsListed(h: Hasher, minTokens: nat, slots: Slots, index: map<Key, seq<Id>>, nextId: nat, tick: nat,
                       model: nat, prompt: seq<Token>, maxLen: nat, id: Id, j: Id, k: Key)
    requires SlotsOk(h, minTokens, slots, nextId, tick) && Indexed(slots, index) && maxLen <= |prompt|
    requires id in slots && Usable(slots[id].entry, model, prompt, maxLen) && k in slots[id].keys
    requires j in slots && Usable(slots[j].entry, model, prompt, maxLen)
    ensures |slots[j].entry.tokens| >= |slots[id].entry.tokens| ==> ListedUnder(index, k, j)
    ensures |slots[id].entry.tokens| >= BLOCK
  {
    UsableKeys(h, minTokens, slots, nextId, tick, model, prompt, maxLen, id);
    UsableKeys(h, minTokens, slots, nextId, tick, model, prompt, maxLen, j);
    if |slots[j].entry.tokens| >= |slots[id].entry.tokens| {
      assert slots[id].keys == slots[j].keys[..|slots[id].keys|];
      assert k in slots[j].keys;
    }
  }

  /** The leading prompt keys matched by the index cover every usable entry, and
      an entry with blocks is listed under the last of its own keys. */
  lemma MatchedKeysCover(h: Hasher, minTokens: nat, slots: Slots, index: map<Key, seq<Id>>, nextId: nat, tick: nat,
                         model: nat, prompt: seq<Token>, maxLen: nat, n: nat, id: Id)
    requires SlotsOk(h, minTokens, slots, nextId, tick) && Indexed(slots, index) && maxLen <= |prompt|
    requires id in slots && Usable(slots[id].entry, model, prompt, maxLen)
    requires var keys := BlockKeys(h, model, prompt[..maxLen]);
      n <= |keys| && (n < |keys| ==> keys[n] !in index)
    ensures var nb := |slots[id].keys|;
      nb <= n && (nb > 0 ==> ListedUnder(index, BlockKeys(h, model, prompt[..maxLen])[nb - 1], id))
  {
    var keys := BlockKeys(h, model, prompt[..maxLen]);
    UsableKeys(h, minTokens, slots, nextId, tick, model, prompt, maxLen, id);
    var own := slots[id].keys;
    assert forall i | 0 <= i < |own| :: own[i] == keys[i] && ListedUnder(index, own[i], id);
  }

  /** `id` is the longest usable entry that key `k` lists. */
  ghost predicate LongestListed(slots: Slots, index: map<Key, seq<Id>>, model: nat, prompt: seq<Token>, maxLen: nat,
                                k: Key, id: Id)
  {
    id in slots && ListedUnder(index, k, id) && Usable(slots[id].entry, model, prompt, maxLen) &&
    forall j | j in slots && ListedUnder(index, k, j) && Usable(slots[j].entry, model, prompt, maxLen) ::
      |slots[j].entry.tokens| <= |slots[id].entry.tokens|
  }

  ghost predicate NoneListed(slots: Slots, index: map<Key, seq<Id>>, model: nat, prompt: seq<Token>, maxLen: nat, k: Key) {
    forall j | j in slots && ListedUnder(index, k, j) :: !Usable(slots[j].entry, model, prompt, maxLen)
  }

  /** The longest usable entry listed under the deepest key that lists any is
      the longest of all. A usable entry that gets there by a hash collision
      has that key among its own, hence so does every longer usable entry. */
  lemma {:induction false} DeepestIsLongest(h: Hasher, minTokens: nat, slots: Slots, index: map<Key, seq<Id>>,
                                            nextId: nat, tick: nat, model: nat, prompt: seq<Token>, maxLen: nat,
                                            n: nat, d: nat, id: Id)
    requires SlotsOk(h, minTokens, slots, nextId, tick) && Indexed(slots, index) && maxLen <= |prompt|
    requires var keys := BlockKeys(h, model, prompt[..maxLen]);
      n <= |keys| && (n < |keys| ==> keys[n] !in index) && d < n &&
      LongestListed(slots, index, model, prompt, maxLen, keys[d], id) &&
      (forall e | d < e < n :: NoneListed(slots, index, model, prompt, maxLen, keys[e]))
    ensures IsLongest(slots, model, prompt, maxLen, id)
  {
    var keys := BlockKeys(h, model, prompt[..maxLen]);
    forall j | j in slots && Usable(slots[j].entry, model, prompt, maxLen)
      ensures |slots[j].entry.tokens| <= |slots[id].entry.tokens|
    {
      LongerIsListed(h, minTokens, slots, index, nextId, tick, model, prompt, maxLen, id, j, keys[d]);
    }
  }

  /** Without a match in the index, the longest usable entry is a short one. */
  lemma {:induction false} UnlistedIsShort(h: Hasher, minTokens: nat, slots: Slots, index: map<Key, seq<Id>>,
                                           nextId: nat, tick: nat, model: nat, prompt: seq<Token>, maxLen: nat,
                                           n: nat)
    requires SlotsOk(h, minTokens, slots, nextId, tick) && Indexed(slots, index) && maxLen <= |prompt|
    requires var keys := BlockKeys(h, model, prompt[..maxLen]);
      n <= |keys| && (n < |keys| ==> keys[n] !in index) &&
      (forall e | 0 <= e < n :: NoneListed(slots, index, model, prompt, maxLen, keys[e]))
    ensures forall id | id in slots && Usable(slots[id].entry, model, prompt, maxLen) :: slots[id].keys == []
  {
    forall id | id in slots && Usable(slots[id].entry, model, prompt, maxLen) ensures slots[id].keys == [] {
      MatchedKeysCover(h, minTokens, slots, index, nextId, tick, model, prompt, maxLen, n, id);
    }
  }

  lemma NoneAt(slots: Slots, index: map<Key, seq<Id>>, model: nat, prompt: seq<Token>, maxLen: nat, k: Key)
    requires k in index ==> BestOf(slots, index[k], model, prompt, maxLen, None)
    ensures NoneListed(slots, index, model, prompt, maxLen, k)
  {
    hide Usable;
  }

  /** What the deepest key that lists anything usable gives is the answer. */
  lemma FoundAt(h: Hasher, minTokens: nat, slots: Slots, index: map<Key, seq<Id>>, nextId: nat, tick: nat, model: nat,
                prompt: seq<Token>, maxLen: nat, n: nat, d: nat, id: Id)
    requires DistinctTokens(slots) && SlotsOk(h, minTokens, slots, nextId, tick) && Indexed(slots, index) &&
      maxLen <= |prompt|
    requires var keys := BlockKeys(h, model, prompt[..maxLen]);
      n <= |keys| && (n < |keys| ==> keys[n] !in index) && d < n && keys[d] in index &&
      BestOf(slots, index[keys[d]], model, prompt, maxLen, Some(id)) &&
      (forall e | d < e < n :: NoneListed(slots, index, model, prompt, maxLen, keys[e]))
    ensures LinearScan(slots, model, prompt, maxLen) == Some(id)
  {
    hide SlotsOk, Indexed, Usable, NoneListed, IsLongest;
    assert LongestListed(slots, index, model, prompt, maxLen, BlockKeys(h, model, prompt[..maxLen])[d], id);
    DeepestIsLongest(h, minTokens, slots, index, nextId, tick, model, prompt, maxLen, n, d, id);
    LongestUnique(slots, model, prompt, maxLen, id);
  }

  /** Otherwise what the list of short entries gives is. */
  lemma FoundShort(slots: Slots, short: seq<Id>, model: nat, prompt: seq<Token>, maxLen: nat, r: Option<Id>)
    requires DistinctTokens(slots) && ShortListed(slots, short) && BestOf(slots, short, model, prompt, maxLen, r)
    requires forall id | id in slots && Usable(slots[id].entry, model, prompt, maxLen) :: slots[id].keys == []
    ensures LinearScan(slots, model, prompt, maxLen) == r
  {
    if r.Some? {
      assert IsLongest(slots, model, prompt, maxLen, r.value);
      LongestUnique(slots, model, prompt, maxLen, r.value);
    }
  }

  // ----- eviction drops as little as possible ---------------------------------------

  /** `kept` is what remains of `slots` after dropping some least recently used
      entries. */
  ghost predicate RecentPart(slots: Slots, kept: Slots) {
    kept.Keys <= slots.Keys && (forall id | id in kept :: kept[id] == slots[id]) &&
    forall i, j | i in kept && j in slots && j !in kept :: slots[j].lastUsed < slots[i].lastUsed
  }

  /** `kept` fits, and every other recent part that fits keeps no more. */
  ghost predicate FewestDropped(slots: Slots, kept: Slots, need: nat, budget: nat) {
    RecentPart(slots, kept) && SumBytes(kept) + need <= budget &&
    forall other | RecentPart(slots, other) && SumBytes(other) + need <= budget :: other.Keys <= kept.Keys
  }

  lemma {:induction false} EvictFewest(slots: Slots, need: nat, budget: nat)
    requires DistinctUse(slots) && need <= budget
    ensures FewestDropped(slots, Evict(slots, need, budget), need, budget)
    decreases |slots|
  {
    if SumBytes(slots) + need > budget {
      assert SumBytes(map[]) == 0;
      OldestExists(slots);
      var id :| IsOldest(slots, id) && Evict(slots, need, budget) == Evict(slots - {id}, need, budget);
      EvictFewest(slots - {id}, need, budget);
      DropOldest(slots, id, Evict(slots - {id}, need, budget), need, budget);
    } else {
      assert RecentPart(slots, slots);
    }
  }

  lemma {:induction false} DropOldest(slots: Slots, id: Id, kept: Slots, need: nat, budget: nat)
    requires DistinctUse(slots) && IsOldest(slots, id) && SumBytes(slots) + need > budget
    requires FewestDropped(slots - {id}, kept, need, budget)
    ensures FewestDropped(slots, kept, need, budget)
  {
    hide SumBytes;
    forall other | RecentPart(slots, other) && SumBytes(other) + need <= budget
      ensures other.Keys <= kept.Keys
    {
      RecentWithoutOldest(slots, other, id);
    }
  }

  lemma RecentWithoutOldest(slots: Slots, other: Slots, id: Id)
    requires DistinctUse(slots) && RecentPart(slots, other) && IsOldest(slots, id)
    ensures other == slots || RecentPart(slots - {id}, other)
  {
    if id in other {
      assert forall j | j in slots :: j in other;
      assert other.Keys == slots.Keys;
    }
  }

  // ----- how the invariants survive each change ----------------------------------------

  function Without(ids: seq<Id>, id: Id): (r: seq<Id>)
    ensures forall j :: j in r <==> j in ids && j != id
  {
    if ids == [] then [] else (if ids[0] == id then [] else [ids[0]]) + Without(ids[1..], id)
  }

  ghost predicate Consistent(h: Hasher, minTokens: nat, slots: Slots, index: map<Key, seq<Id>>, short: seq<Id>,
                             nextId: nat, tick: nat)
  {
    SlotsOk(h, minTokens, slots, nextId, tick) && DistinctUse(slots) && DistinctTokens(slots) &&
    Indexed(slots, index) && ShortListed(slots, short)
  }

  lemma TouchKeeps(h: Hasher, minTokens: nat, slots: Slots, index: map<Key, seq<Id>>, short: seq<Id>,
                   nextId: nat, tick: nat, id: Id)
    requires Consistent(h, minTokens, slots, index, short, nextId, tick) && id in slots
    ensures Consistent(h, minTokens, slots[id := slots[id].(lastUsed := tick + 1)], index, short, nextId, tick + 1)
  {
    var after := slots[id := slots[id].(lastUsed := tick + 1)];
    assert forall j :: j in after <==> j in slots;
    assert forall j | j in slots :: after[j].keys == slots[j].keys && after[j].entry == slots[j].entry;
    TouchedIndex(slots, after, index, short);
  }

  /** The index depends only on which entries live and on their keys. */
  lemma TouchedIndex(slots: Slots, after: Slots, index: map<Key, seq<Id>>, short: seq<Id>)
    requires forall j :: j in after <==> j in slots
    requires forall j | j in slots :: after[j].keys == slots[j].keys
    requires Indexed(slots, index) && ShortListed(slots, short)
    ensures Indexed(after, index) && ShortListed(after, short)
  {
  }

  /** `index` has lost the mentions of `id` under the first `n` of `keys`. */
  ghost predicate Unlisted(before: map<Key, seq<Id>>, index: map<Key, seq<Id>>, keys: seq<Key>, id: Id) {
    (forall k | k in index :: index[k] != []) &&
    forall k, j :: ListedUnder(index, k, j) <==> ListedUnder(before, k, j) && !(j == id && k in keys)
  }

  ghost predicate Listed(before: map<Key, seq<Id>>, index: map<Key, seq<Id>>, keys: seq<Key>, id: Id) {
    (forall k | k in index :: index[k] != []) &&
    forall k, j :: ListedUnder(index, k, j) <==> ListedUnder(before, k, j) || (j == id && k in keys)
  }

  function AddUnder(index: map<Key, seq<Id>>, k: Key, id: Id): map<Key, seq<Id>> {
    index[k := (if k in index then index[k] else []) + [id]]
  }

  function DropUnder(index: map<Key, seq<Id>>, k: Key, id: Id): map<Key, seq<Id>> {
    if k !in index then index
    else
      var ids := Without(index[k], id);
      if ids == [] then index - {k} else index[k := ids]
  }

  lemma ListStep(before: map<Key, seq<Id>>, index: map<Key, seq<Id>>, keys: seq<Key>, id: Id, k: Key)
    requires Listed(before, index, keys, id)
    ensures Listed(before, AddUnder(index, k, id), keys + [k], id)
  {
    var after := AddUnder(index, k, id);
    forall c, j ensures ListedUnder(after, c, j) <==> ListedUnder(before, c, j) || (j == id && c in keys + [k]) {
      assert ListedUnder(index, c, j) <==> ListedUnder(before, c, j) || (j == id && c in keys);
    }
  }

  lemma UnlistStep(before: map<Key, seq<Id>>, index: map<Key, seq<Id>>, keys: seq<Key>, id: Id, k: Key)
    requires Unlisted(before, index, keys, id)
    ensures Unlisted(before, DropUnder(index, k, id), keys + [k], id)
  {
    var after := DropUnder(index, k, id);
    forall c, j ensures ListedUnder(after, c, j) <==> ListedUnder(before, c, j) && !(j == id && c in keys + [k]) {
      assert ListedUnder(index, c, j) <==> ListedUnder(before, c, j) && !(j == id && c in keys);
      assert c == k && k in index ==> (j in Without(index[k], id) <==> j in index[k] && j != id);
    }
  }

  lemma RemoveKeeps(h: Hasher, minTokens: nat, slots: Slots, before: map<Key, seq<Id>>, index: map<Key, seq<Id>>,
                    short: seq<Id>, nextId: nat, tick: nat, id: Id)
    requires Consistent(h, minTokens, slots, before, short, nextId, tick) && id in slots
    requires Unlisted(before, index, slots[id].keys, id)
    ensures Consistent(h, minTokens, slots - {id}, index,
      if slots[id].keys == [] then Without(short, id) else short, nextId, tick)
  {
    forall k, j ensures ListedUnder(index, k, j) <==> j in slots - {id} && k in (slots - {id})[j].keys {
      assert ListedUnder(before, k, j) <==> j in slots && k in slots[j].keys;
    }
  }

  lemma AddKeeps(h: Hasher, minTokens: nat, slots: Slots, before: map<Key, seq<Id>>, index: map<Key, seq<Id>>,
                 short: seq<Id>, nextId: nat, tick: nat, slot: Slot)
    requires Consistent(h, minTokens, slots, before, short, nextId, tick)
    requires slot.keys == BlockKeys(h, slot.entry.model, slot.entry.tokens) && slot.lastUsed == tick + 1
    requires |slot.entry.tokens| >= minTokens && slot.entry.snapshot.len == |slot.entry.tokens|
    requires forall j | j in slots :: slots[j].entry.model != slot.entry.model || slots[j].entry.tokens != slot.entry.tokens
    requires Listed(before, index, slot.keys, nextId)
    ensures Consistent(h, minTokens, slots[nextId := slot], index,
      if slot.keys == [] then short + [nextId] else short, nextId + 1, tick + 1)
  {
    var after := slots[nextId := slot];
    assert nextId !in slots;
    forall k, j ensures ListedUnder(index, k, j) <==> j in after && k in after[j].keys {
      assert ListedUnder(before, k, j) <==> j in slots && k in slots[j].keys;
    }
  }

  // ----- the cache ------------------------------------------------------------------------

  class PromptCache {
    const hasher: Hasher
    const budget: nat
    const minTokens: nat
    var slots: Slots
    var index: map<Key, seq<Id>>
    var short: seq<Id>
    var bytes: nat
    var nextId: nat
    var tick: nat
    /** All that was ever given to `Insert`, kept or not. */
    ghost var offered: seq<Offer>

    ghost predicate Valid()
      reads this
    {
      minTokens >= 1 && Consistent(hasher, minTokens, slots, index, short, nextId, tick) &&
      bytes == SumBytes(slots) <= budget
    }

    /** What is held fits the budget. */
    lemma HeldFits()
      requires Valid()
      ensures HeldBytes(slots) == bytes <= budget
    {
      HeldIsCharged(slots);
    }

    constructor (hasher: Hasher, budget: nat, minTokens: nat)
      ensures Valid() && slots == map[] && this.budget == budget
      ensures this.minTokens == if minTokens < 1 then 1 else minTokens
    {
      this.hasher := hasher;
      this.budget := budget;
      this.minTokens := if minTokens < 1 then 1 else minTokens;
      slots, index, short, bytes, nextId, tick := map[], map[], [], 0, 0, 0;
      offered := [];
    }

    /** The leading block keys of `prompt` that the index knows. */
    method MatchedKeys(model: nat, prompt: seq<Token>) returns (keys: seq<Key>)
      ensures var all := BlockKeys(hasher, model, prompt);
        keys <= all && (|keys| < |all| ==> all[|keys|] !in index)
    {
      keys := [];
      var n := |prompt| / BLOCK;
      ghost var all := BlockKeys(hasher, model, prompt);
      while |keys| < n
        invariant |keys| <= n && keys <= all
      {
        var i := |keys|;
        KeysAgree(hasher, model, prompt, prompt, i + 1, n);
        KeysAgree(hasher, model, prompt, prompt, i, n);
        var key := hasher.chain(if i == 0 then hasher.seed(model) else keys[i - 1],
                                prompt[i * BLOCK..(i + 1) * BLOCK]);
        assert KeysUpTo(hasher, model, prompt, i + 1)[i] == key == all[i];
        if key !in index {
          return;
        }
        keys := keys + [key];
      }
    }

    /** The longest usable entry among `ids` (the last of equally long ones). */
    method Pick(ids: seq<Id>, model: nat, prompt: seq<Token>, maxLen: nat) returns (best: Option<Id>)
      ensures BestOf(slots, ids, model, prompt, maxLen, best)
    {
      best := None;
      for i := 0 to |ids|
        invariant BestOf(slots, ids[..i], model, prompt, maxLen, best)
      {
        var id := ids[i];
        assert ids[..i + 1] == ids[..i] + [id];
        if id in slots && Usable(slots[id].entry, model, prompt, maxLen) {
          if best.None? || |slots[id].entry.tokens| >= |slots[best.value].entry.tokens| {
            best := Some(id);
          }
        }
      }
      assert ids[..|ids|] == ids;
    }

    /** Deepest matched key first, then the short list. */
    method FindLongest(model: nat, prompt: seq<Token>, maxLen: nat) returns (r: Option<Id>)
      requires Valid() && maxLen <= |prompt|
      ensures r == LinearScan(slots, model, prompt, maxLen)
    {
      hide SlotsOk, Indexed, ShortListed, SumBytes, BlockKeys, BestOf, NoneListed, Usable, LinearScan;
      ghost var all := BlockKeys(hasher, model, prompt[..maxLen]);
      var keys := MatchedKeys(model, prompt[..maxLen]);
      assert |keys| <= |all|;
      var d := |keys|;
      while d > 0
        invariant 0 <= d <= |keys|
        invariant forall e | d <= e < |keys| :: NoneListed(slots, index, model, prompt, maxLen, all[e])
      {
        d := d - 1;
        if keys[d] in index {
          r := Pick(index[keys[d]], model, prompt, maxLen);
          if r.Some? {
            FoundAt(hasher, minTokens, slots, index, nextId, tick, model, prompt, maxLen, |keys|, d, r.value);
            return;
          }
        }
        NoneAt(slots, index, model, prompt, maxLen, all[d]);
      }
      UnlistedIsShort(hasher, minTokens, slots, index, nextId, tick, model, prompt, maxLen, |keys|);
      r := Pick(short, model, prompt, maxLen);
      FoundShort(slots, short, model, prompt, maxLen, r);
    }

    lemma NothingUsable(model: nat, prompt: seq<Token>, maxLen: nat)
      requires Valid() && (maxLen < minTokens || |slots| == 0)
      ensures LinearScan(slots, model, prompt, maxLen) == None
    {
    }

    /** The longest entry of `model` that is a prefix of `prompt` and at most
        `limit` long; marks it recently used. */
    method Lookup(model: nat, prompt: seq<Token>, limit: nat) returns (r: Option<CacheEntry>)
      requires Valid()
      modifies this`slots, this`tick
      ensures Valid()
      ensures var found := LinearScan(old(slots), model, prompt, if limit <= |prompt| then limit else |prompt|);
        if found.None? then r == None && slots == old(slots)
        else r == Some(old(slots)[found.value].entry) && slots == Touched(old(slots), found.value, old(tick) + 1)
    {
      hide Valid, LinearScan;
      var maxLen := if limit <= |prompt| then limit else |prompt|;
      if maxLen < minTokens || |slots| == 0 {
        NothingUsable(model, prompt, maxLen);
        return None;
      }
      var found := FindLongest(model, prompt, maxLen);
      if found.None? {
        return None;
      }
      var id := found.value;
      r := Some(slots[id].entry);
      Touch(id);
    }

    method Touch(id: Id)
      requires Valid() && id in slots
      modifies this`slots, this`tick
      ensures Valid() && tick == old(tick) + 1 && slots == Touched(old(slots), id, tick)
    {
      hide Consistent;
      TouchKeeps(hasher, minTokens, slots, index, short, nextId, tick, id);
      SumBytesTouch(slots, id, tick + 1);
      tick := tick + 1;
      slots := slots[id := slots[id].(lastUsed := tick)];
    }

    /** The entry for exactly `tokens`, through the key of its last block. */
    method FindExact(model: nat, tokens: seq<Token>) returns (r: Option<Id>)
      requires Valid()
      ensures r.Some? ==> r.value in slots && IsEntry(slots[r.value].entry, model, tokens)
      ensures r.Some? <==> Present(slots, model, tokens)
    {
      var keys := BlockKeys(hasher, model, tokens);
      var ids := short;
      if keys != [] {
        var last := keys[|keys| - 1];
        assert last in keys;
        assert forall id | id in slots && IsEntry(slots[id].entry, model, tokens) :: ListedUnder(index, last, id);
        if last !in index {
          return None;
        }
        ids := index[last];
      }
      for i := 0 to |ids|
        invariant forall j | 0 <= j < i :: !(ids[j] in slots && IsEntry(slots[ids[j]].entry, model, tokens))
      {
        if ids[i] in slots && IsEntry(slots[ids[i]].entry, model, tokens) {
          return Some(ids[i]);
        }
      }
      return None;
    }

    /** Whether an entry for exactly `tokens` exists; refreshes it if so. */
    method Contains(model: nat, tokens: seq<Token>) returns (found: bool)
      requires Valid()
      modifies this`slots, this`tick
      ensures Valid()
      ensures found <==> Present(old(slots), model, tokens)
      ensures if found then Refreshed(old(slots), slots, model, tokens, tick) else slots == old(slots)
    {
      var r := FindExact(model, tokens);
      if r.None? {
        return false;
      }
      Touch(r.value);
      return true;
    }

    /** Insert `snapshot`, evicting the least recently used entries that do not
        fit beside it. Refused when too short, of another length, larger than
        the whole budget, or already cached. */
    method Insert(model: nat, tokens: seq<Token>, snapshot: Snapshot) returns (inserted: bool)
      requires Valid()
      modifies this
      ensures Valid()
      ensures inserted <==>
        |tokens| >= minTokens && snapshot.len == |tokens| &&
        CacheEntry(model, tokens, snapshot).Bytes() <= budget && !Present(old(slots), model, tokens)
      ensures !inserted ==> slots == old(slots)
      ensures inserted ==> InsertedInto(old(slots), slots, old(nextId), CacheEntry(model, tokens, snapshot), budget)
      ensures inserted ==> Present(slots, model, tokens)
      ensures offered == old(offered) + [Offer(model, tokens)]
    {
      hide Valid, FewestDropped, Evict, CacheEntry.Bytes, InsertedInto, Present;
      Note(Offer(model, tokens));
      if |tokens| < minTokens || snapshot.len != |tokens| {
        return false;
      }
      var entry := CacheEntry(model, tokens, snapshot);
      if entry.Bytes() > budget {
        return false;
      }
      var present := FindExact(model, tokens);
      if present.Some? {
        return false;
      }
      ghost var all := slots;
      AllBefore();
      EvictFewest(slots, entry.Bytes(), budget);
      EvictUntilFits(entry.Bytes());
      KeptIsOld(all, slots, entry.Bytes(), budget);
      StillAbsent(all, slots, model, tokens);
      InsertedMeaning(all, slots, nextId, Slot(entry, tick + 1, BlockKeys(hasher, model, tokens)), budget);
      Add(entry);
      NowPresent(slots, old(nextId), model, tokens);
      return true;
    }

    ghost method Note(o: Offer)
      requires Valid()
      modifies this`offered
      ensures Valid() && offered == old(offered) + [o]
    {
      offered := offered + [o];
    }

    lemma AllBefore()
      requires Valid()
      ensures DistinctUse(slots) && nextId !in slots && forall j | j in slots :: slots[j].lastUsed < tick + 1
    {
    }

    /** List a new entry, known to fit, under its keys. */
    method Add(entry: CacheEntry)
      requires Valid() && bytes + entry.Bytes() <= budget
      requires |entry.tokens| >= minTokens && entry.snapshot.len == |entry.tokens|
      requires !Present(slots, entry.model, entry.tokens)
      modifies this`slots, this`index, this`short, this`bytes, this`nextId, this`tick
      ensures Valid()
      ensures old(nextId) !in old(slots)
      ensures slots == old(slots)[old(nextId) := Slot(entry, old(tick) + 1, BlockKeys(hasher, entry.model, entry.tokens))]
    {
      hide Consistent, Listed, SumBytes, CacheEntry.Bytes;
      ListsNonEmpty();
      AllBefore();
      var id := nextId;
      var keys := BlockKeys(hasher, entry.model, entry.tokens);
      var slot := Slot(entry, tick + 1, keys);
      ghost var before := index;
      ListKeys(id, keys);
      AddKeeps(hasher, minTokens, slots, before, index, short, id, tick, slot);
      SumBytesAdd(slots, id, slot);
      if keys == [] {
        short := short + [id];
      }
      nextId := nextId + 1;
      tick := tick + 1;
      slots := slots[id := slot];
      bytes := bytes + entry.Bytes();
    }

    method ListKeys(id: Id, keys: seq<Key>)
      requires forall k | k in index :: index[k] != []
      modifies this`index
      ensures Listed(old(index), index, keys, id)
    {
      ghost var before := index;
      for i := 0 to |keys|
        invariant Listed(before, index, keys[..i], id)
      {
        assert keys[..i + 1] == keys[..i] + [keys[i]];
        ListStep(before, index, keys[..i], id, keys[i]);
        index := AddUnder(index, keys[i], id);
      }
      assert keys[..|keys|] == keys;
    }

    method Oldest() returns (id: Id)
      requires slots != map[]
      ensures IsOldest(slots, id)
    {
      var rest := slots.Keys;
      id :| id in rest;
      rest := rest - {id};
      while rest != {}
        invariant rest <= slots.Keys && id in slots && id !in rest
        invariant forall j | j in slots && j !in rest :: slots[id].lastUsed <= slots[j].lastUsed
        decreases rest
      {
        var j :| j in rest;
        rest := rest - {j};
        if slots[j].lastUsed < slots[id].lastUsed {
          id := j;
        }
      }
    }

    method EvictUntilFits(need: nat)
      requires Valid() && need <= budget
      modifies this`slots, this`index, this`short, this`bytes
      ensures Valid() && bytes + need <= budget
      ensures slots == Evict(old(slots), need, budget)
    {
      while bytes + need > budget
        invariant Valid()
        invariant Evict(slots, need, budget) == Evict(old(slots), need, budget)
        decreases |slots|
      {
        assert SumBytes(map[]) == 0;
        var victim := Oldest();
        EvictStep(slots, need, budget, victim);
        Remove(victim);
      }
    }

    method Remove(id: Id)
      requires Valid()
      modifies this`slots, this`index, this`short, this`bytes
      ensures Valid() && slots == old(slots) - {id}
    {
      if id !in slots {
        assert slots - {id} == slots;
        return;
      }
      RemoveLive(id);
    }

    lemma ListsNonEmpty()
      requires Valid()
      ensures forall k | k in index :: index[k] != []
    {
    }

    method RemoveLive(id: Id)
      requires Valid() && id in slots
      modifies this`slots, this`index, this`short, this`bytes
      ensures Valid() && slots == old(slots) - {id}
    {
      hide Consistent, Unlisted, SumBytes, CacheEntry.Bytes;
      ListsNonEmpty();
      var slot := slots[id];
      SumBytesRemove(slots, id);
      ghost var before := index;
      UnlistKeys(id, slot.keys);
      RemoveKeeps(hasher, minTokens, slots, before, index, short, nextId, tick, id);
      if slot.keys == [] {
        short := Without(short, id);
      }
      bytes := bytes - slot.entry.Bytes();
      slots := slots - {id};
    }

    method UnlistKeys(id: Id, keys: seq<Key>)
      requires forall k | k in index :: index[k] != []
      modifies this`index
      ensures Unlisted(old(index), index, keys, id)
    {
      ghost var before := index;
      for i := 0 to |keys|
        invariant Unlisted(before, index, keys[..i], id)
      {
        assert keys[..i + 1] == keys[..i] + [keys[i]];
        UnlistStep(before, index, keys[..i], id, keys[i]);
        index := DropUnder(index, keys[i], id);
      }
      assert keys[..|keys|] == keys;
    }

    method Clear()
      requires Valid()
      modifies this`slots, this`index, this`short, this`bytes
      ensures Valid() && slots == map[] && bytes == 0 && index == map[] && short == []
    {
      while slots != map[]
        invariant Valid()
        decreases |slots|
      {
        var id :| id in slots;
        Remove(id);
      }
      EmptyIndex(index, short);
    }
  }

  /** `best` is the longest usable live entry named by `ids`, if there is one. */
  ghost predicate BestOf(slots: Slots, ids: seq<Id>, model: nat, prompt: seq<Token>, maxLen: nat, best: Option<Id>) {
    match best
    case None =>
      forall id | id in ids && id in slots :: !Usable(slots[id].entry, model, prompt, maxLen)
    case Some(b) =>
      b in ids && b in slots && Usable(slots[b].entry, model, prompt, maxLen) &&
      forall id | id in ids && id in slots && Usable(slots[id].entry, model, prompt, maxLen) ::
        |slots[id].entry.tokens| <= |slots[b].entry.tokens|
  }

  ghost predicate Present(slots: Slots, model: nat, tokens: seq<Token>) {
    exists id :: id in slots && IsEntry(slots[id].entry, model, tokens)
  }

  lemma NowPresent(slots: Slots, id: Id, model: nat, tokens: seq<Token>)
    requires id in slots && slots[id].entry.model == model && slots[id].entry.tokens == tokens
    ensures Present(slots, model, tokens)
  {
    assert IsEntry(slots[id].entry, model, tokens);
  }

  /** Refreshing an entry leaves the same entries present. */
  lemma RefreshedPresent(before: Slots, after: Slots, model: nat, tokens: seq<Token>, tick: nat)
    requires Refreshed(before, after, model, tokens, tick)
    ensures forall m, t :: Present(after, m, t) <==> Present(before, m, t)
  {
    var id :| id in before && IsEntry(before[id].entry, model, tokens) && after == Touched(before, id, tick);
    assert forall j | j in before :: j in after && after[j].entry == before[j].entry;
    assert forall j | j in after :: j in before;
    forall m, t ensures Present(after, m, t) <==> Present(before, m, t) {
      if j :| j in before && IsEntry(before[j].entry, m, t) {
        assert IsEntry(after[j].entry, m, t);
      }
      if j :| j in after && IsEntry(after[j].entry, m, t) {
        assert IsEntry(before[j].entry, m, t);
      }
    }
  }

  predicate IsEntry(e: CacheEntry, model: nat, tokens: seq<Token>) {
    e.model == model && e.tokens == tokens
  }

  function Touched(slots: Slots, id: Id, tick: nat): Slots
    requires id in slots
  {
    slots[id := slots[id].(lastUsed := tick)]
  }

  ghost predicate Refreshed(before: Slots, after: Slots, model: nat, tokens: seq<Token>, tick: nat) {
    exists id :: id in before && IsEntry(before[id].entry, model, tokens) && after == Touched(before, id, tick)
  }

  /** `after` is the fewest-dropped part of `before` plus the new entry, which
      is the most recently used one. */
  ghost predicate InsertedInto(before: Slots, after: Slots, id: Id, e: CacheEntry, budget: nat) {
    id !in before && id in after && after[id].entry == e &&
    FewestDropped(before, after - {id}, e.Bytes(), budget) &&
    forall j | j in before :: before[j].lastUsed < after[id].lastUsed
  }

  lemma StillAbsent(slots: Slots, kept: Slots, model: nat, tokens: seq<Token>)
    requires !Present(slots, model, tokens)
    requires kept.Keys <= slots.Keys && forall id | id in kept :: kept[id] == slots[id]
    ensures !Present(kept, model, tokens)
  {
    assert forall id | id in kept :: !IsEntry(slots[id].entry, model, tokens);
  }

  lemma InsertedMeaning(before: Slots, kept: Slots, id: Id, slot: Slot, budget: nat)
    requires FewestDropped(before, kept, slot.entry.Bytes(), budget) && id !in before && id !in kept
    requires forall j | j in before :: before[j].lastUsed < slot.lastUsed
    ensures InsertedInto(before, kept[id := slot], id, slot.entry, budget)
  {
    hide FewestDropped;
    assert kept[id := slot] - {id} == kept;
  }

  lemma KeptIsOld(slots: Slots, kept: Slots, need: nat, budget: nat)
    requires FewestDropped(slots, kept, need, budget)
    ensures kept.Keys <= slots.Keys && forall id | id in kept :: kept[id] == slots[id]
  {
  }

  lemma EvictStep(slots: Slots, need: nat, budget: nat, victim: Id)
    requires DistinctUse(slots) && IsOldest(slots, victim) && SumBytes(slots) + need > budget
    ensures Evict(slots, need, budget) == Evict(slots - {victim}, need, budget)
  {
    var id :| IsOldest(slots, id) && Evict(slots, need, budget) == Evict(slots - {id}, need, budget);
    OldestUnique(slots, id, victim);
  }

  lemma EmptyIndex(index: map<Key, seq<Id>>, short: seq<Id>)
    requires Indexed(map[], index) && ShortListed(map[], short)
    ensures index == map[] && short == []
  {
    NothingListed(index);
    assert forall k | k in index :: ListedUnder(index, k, index[k][0]);
    HeadIn(short);
  }

  lemma HeadIn(s: seq<Id>)
    ensures s == [] || s[0] in s
  {
  }

  lemma NothingListed(index: map<Key, seq<Id>>)
    requires Indexed(map[], index)
    ensures forall k | k in index :: index[k] != []
    ensures forall k, id :: !ListedUnder(index, k, id)
  {
  }
}
