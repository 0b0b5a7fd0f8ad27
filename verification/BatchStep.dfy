/** The continuous-batching step: the next token of every decoding session plus
    prefill chunks within a budget, through one forward. */
module BatchSteps {
  import opened Wrappers
  import opened States
  import opened PromptCaches
  import opened Decoding
  import opened DecodeLoops
  import opened Generators
  import opened Reasoning
  import opened BatchSessions

  // ----- who takes part ------------------------------------------------------

  datatype Need = Nothing | Prefilling(left: nat) | OneToken

  datatype Granted = Granted(take: nat, budget: nat, first: bool)

  /** One to a decoding session; to a prefilling one at most `chunk`, within
      what is left of the budget, except that the first is always granted
      something. */
  function Grant(need: Need, chunk: nat, budget: nat, first: bool): Granted {
    match need
    case Nothing => Granted(0, budget, first)
    case OneToken => Granted(1, budget, first)
    case Prefilling(left) =>
      var room := Min(chunk, if first && budget < 1 then 1 else budget);
      if room == 0 then Granted(0, budget, first)
      else
        var take := Min(room, left);
        Granted(take, budget - Min(take, budget), false)
  }

  /** Tokens granted to each session, in order. */
  function Takes(needs: seq<Need>, chunk: nat, budget: nat, first: bool): (r: seq<nat>)
    ensures |r| == |needs|
  {
    if needs == [] then []
    else
      var g := Grant(needs[0], chunk, budget, first);
      [g.take] + Takes(needs[1..], chunk, g.budget, g.first)
  }

  function PrefillTotal(needs: seq<Need>, takes: seq<nat>): nat
    requires |needs| == |takes|
  {
    if needs == [] then 0
    else (if needs[0].Prefilling? then takes[0] else 0) + PrefillTotal(needs[1..], takes[1..])
  }

  /** Prefill tokens of a step are bounded by the budget (at least one). */
  lemma {:induction false} PrefillBounded(needs: seq<Need>, chunk: nat, budget: nat, first: bool)
    ensures PrefillTotal(needs, Takes(needs, chunk, budget, first)) <= if first && budget < 1 then 1 else budget
  {
    if needs != [] {
      var g := Grant(needs[0], chunk, budget, first);
      PrefillBounded(needs[1..], chunk, g.budget, g.first);
      assert Takes(needs, chunk, budget, first)[1..] == Takes(needs[1..], chunk, g.budget, g.first);
    }
  }

  /** No session is granted more than its chunk or what it needs; a finished
      one gets nothing, a decoding one exactly one token. */
  lemma {:induction false} TakesFit(needs: seq<Need>, chunk: nat, budget: nat, first: bool, i: nat)
    requires i < |needs|
    ensures var take := Takes(needs, chunk, budget, first)[i];
      match needs[i]
      case Nothing => take == 0
      case OneToken => take == 1
      case Prefilling(left) => take <= chunk && take <= left
  {
    if i > 0 {
      var g := Grant(needs[0], chunk, budget, first);
      TakesFit(needs[1..], chunk, g.budget, g.first, i - 1);
    }
  }

  /** The first session still prefilling is always granted something, whatever
      the budget. */
  lemma {:induction false} FirstPrefillAdvances(needs: seq<Need>, chunk: nat, budget: nat, i: nat)
    requires i < |needs| && needs[i].Prefilling? && needs[i].left > 0 && chunk > 0
    requires forall j | 0 <= j < i :: !needs[j].Prefilling?
    ensures Takes(needs, chunk, budget, true)[i] > 0
  {
    if i > 0 {
      assert !needs[0].Prefilling?;
      FirstPrefillAdvances(needs[1..], chunk, budget, i - 1);
    }
  }

  /** The prefill tokens granted up to and including session `i`. */
  function GrantedUpTo(needs: seq<Need>, takes: seq<nat>, i: nat): nat
    requires i < |needs| == |takes|
  {
    PrefillTotal(needs[..i + 1], takes[..i + 1])
  }

  /** The budget is spent: a prefilling session gets less than its chunk only
      when those up to it have all of the budget. */
  lemma {:induction false} BudgetSpent(needs: seq<Need>, chunk: nat, budget: nat, first: bool, i: nat)
    requires i < |needs| && needs[i].Prefilling?
    requires forall j | 0 <= j <= i && needs[j].Prefilling? :: needs[j].left > 0
    ensures var takes := Takes(needs, chunk, budget, first);
      takes[i] < Min(chunk, needs[i].left) ==> GrantedUpTo(needs, takes, i) >= if first then AtLeastOne(budget) else budget
  {
    var takes := Takes(needs, chunk, budget, first);
    var g := Grant(needs[0], chunk, budget, first);
    assert needs[..i + 1][0] == needs[0] && takes[..i + 1][0] == g.take;
    assert needs[..i + 1][1..] == needs[1..][..i] && takes[..i + 1][1..] == takes[1..][..i];
    if i > 0 {
      BudgetSpent(needs[1..], chunk, g.budget, g.first, i - 1);
    }
  }

  /** Whoever gets less than a chunk has all of the budget before it or with it. */
  ghost predicate AllSpent(needs: seq<Need>, chunk: nat, budget: nat, takes: seq<nat>) {
    |takes| == |needs| &&
    forall i: nat | i < |needs| && needs[i].Prefilling? && takes[i] < Min(chunk, needs[i].left) ::
      GrantedUpTo(needs, takes, i) >= AtLeastOne(budget)
  }

  lemma EveryBudgetSpent(needs: seq<Need>, chunk: nat, budget: nat)
    requires forall j | 0 <= j < |needs| && needs[j].Prefilling? :: needs[j].left > 0
    ensures AllSpent(needs, chunk, budget, Takes(needs, chunk, budget, true))
  {
    hide Takes, GrantedUpTo;
    var takes := Takes(needs, chunk, budget, true);
    forall i: nat | i < |needs| && needs[i].Prefilling? && takes[i] < Min(chunk, needs[i].left)
      ensures GrantedUpTo(needs, takes, i) >= AtLeastOne(budget)
    {
      BudgetSpent(needs, chunk, budget, true, i);
    }
  }

  /** The selection loop. */
  method Choose(needs: seq<Need>, chunk: nat, prefillBudget: nat) returns (takes: seq<nat>)
    ensures takes == Takes(needs, chunk, prefillBudget, true)
  {
    var budget := prefillBudget;
    var first := true;
    takes := [];
    for i := 0 to |needs|
      invariant |takes| == i
      invariant takes + Takes(needs[i..], chunk, budget, first) == Takes(needs, chunk, prefillBudget, true)
    {
      ghost var was := takes;
      assert needs[i..][0] == needs[i] && needs[i..][1..] == needs[i + 1..];
      var g := Grant(needs[i], chunk, budget, first);
      takes, budget, first := takes + [g.take], g.budget, g.first;
      assert was + ([g.take] + Takes(needs[i + 1..], chunk, budget, first)) ==
        takes + Takes(needs[i + 1..], chunk, budget, first);
    }
  }

  function Decoders(needs: seq<Need>): nat {
    if needs == [] then 0 else (if needs[0].OneToken? then 1 else 0) + Decoders(needs[1..])
  }

  function Sum(ns: seq<nat>): nat {
    if ns == [] then 0 else ns[0] + Sum(ns[1..])
  }

  /** All a step grants: a token per decoding session and a bounded prefill. */
  lemma {:induction false} GrantsBounded(needs: seq<Need>, chunk: nat, budget: nat, first: bool)
    ensures Sum(Takes(needs, chunk, budget, first)) ==
      PrefillTotal(needs, Takes(needs, chunk, budget, first)) + Decoders(needs)
  {
    if needs != [] {
      var g := Grant(needs[0], chunk, budget, first);
      GrantsBounded(needs[1..], chunk, g.budget, g.first);
      assert Takes(needs, chunk, budget, first)[1..] == Takes(needs[1..], chunk, g.budget, g.first);
    }
  }

  lemma {:induction false} SumMonotone(a: seq<nat>, b: seq<nat>)
    requires |a| == |b| && forall k | 0 <= k < |a| :: a[k] <= b[k]
    ensures Sum(a) <= Sum(b)
    ensures (exists k | 0 <= k < |a| :: a[k] < b[k]) ==> Sum(a) < Sum(b)
  {
    if a != [] {
      SumMonotone(a[1..], b[1..]);
      if k :| 0 <= k < |a| && a[k] < b[k] {
        if k > 0 {
          assert a[1..][k - 1] < b[1..][k - 1];
        }
      }
    }
  }

  /** While some session has anything left to do, a step with a positive chunk
      moves one. */
  lemma SomeoneAdvances(needs: seq<Need>, chunk: nat, budget: nat, i: nat) returns (k: nat)
    requires i < |needs| && !needs[i].Nothing? && chunk > 0
    requires forall j | 0 <= j < |needs| && needs[j].Prefilling? :: needs[j].left > 0
    ensures k < |needs| && Takes(needs, chunk, budget, true)[k] > 0
  {
    k := i;
    if needs[i].OneToken? {
      TakesFit(needs, chunk, budget, true, i);
    } else {
      var lo := 0;
      while !needs[lo].Prefilling?
        invariant lo <= i && forall j | 0 <= j < lo :: !needs[j].Prefilling?
        decreases i - lo
      {
        lo := lo + 1;
      }
      k := lo;
      FirstPrefillAdvances(needs, chunk, budget, lo);
    }
  }

  // ----- one step -----------------------------------------------------------------

  function NeedOf(s: DecodeSession): Need
    reads s
  {
    if s.finish.Some? then Need.Nothing
    else if s.decoding then OneToken
    else Prefilling(if |s.fed| <= |s.q.prompt| then |s.q.prompt| - |s.fed| else 0)
  }

  /** Forwards a session still needs, at most; 0 once finished. */
  ghost function Remaining(s: DecodeSession): nat
    reads s
  {
    if s.finish.Some? then 0
    else
      var left := if s.decoding || |s.fed| > |s.q.prompt| then 0 else |s.q.prompt| - |s.fed|;
      var budget := if s.completion <= s.q.params.maxTokens then s.q.params.maxTokens - s.completion else 0;
      1 + left + budget
  }

  /** Sessions share nothing but the prompt cache. */
  ghost predicate Apart(ss: seq<DecodeSession>, cache: PromptCache?) {
    (forall i, j | 0 <= i < j < |ss| :: ss[i].Footprint() !! ss[j].Footprint()) &&
    forall i | 0 <= i < |ss| :: ss[i].cache == cache && cache !in ss[i].Footprint()
  }

  ghost function Owned(ss: seq<DecodeSession>): set<object?> {
    set i, o | 0 <= i < |ss| && o in ss[i].Footprint() :: o
  }

  lemma ApartFrom(ss: seq<DecodeSession>, cache: PromptCache?, i: nat)
    requires Apart(ss, cache) && i < |ss|
    ensures forall k | 0 <= k < |ss| && k != i :: ss[k].Footprint() !! ss[i].Footprint()
    ensures ss[i].Footprint() <= Owned(ss)
    ensures ss[i].cache == cache && forall k | 0 <= k < |ss| :: cache !in ss[k].Footprint()
    ensures ss[i] in ss[i].Footprint() && ss[i].state in ss[i].Footprint() && ss[i].Texts() <= ss[i].Footprint()
  {
  }

  /** What a session is about to do when a step begins. */
  datatype Before = Before(fed: seq<Token>, finish: Option<Finish>, result: Option<Output>, poisoned: bool,
                           remaining: nat, input: seq<Token>, streamed: seq<Piece>, taken: nat)

  ghost function Seen(s: DecodeSession, take: nat): Before
    requires s.Valid() && (take > 0 ==> s.finish.None?)
    reads s.Footprint()
  {
    Before(s.fed, s.finish, s.Result(), s.poisoned, Remaining(s), if take > 0 then (s.HasInput(); s.Input(take)) else [],
           s.streamed, s.Taken())
  }

  ghost predicate Chosen(s: DecodeSession, take: nat, was: Before)
    reads s.Footprint()
  {
    s.Valid() && (take > 0 ==> s.finish.None?) && was == Seen(s, take)
  }

  ghost predicate Untouched(s: DecodeSession, was: Before)
    reads s.Footprint()
  {
    s.fed == was.fed && s.finish == was.finish && s.Result() == was.result && s.poisoned == was.poisoned &&
    Remaining(s) == was.remaining && s.streamed == was.streamed && s.Taken() == was.taken
  }

  /** The input was forwarded (`ok`), or the forward failed; either way the
      session waits to be told. */
  ghost predicate Sent(s: DecodeSession, take: nat, was: Before, ok: bool, n: nat, row: Logits)
    reads s.Footprint()
  {
    Untouched(s, was) && n == |was.input| &&
    if take == 0 then s.Valid()
    else
      s.Running() &&
      (ok ==> s.Awaits(n) && row == Logit(s.q.env.compute, s.FedAfter(n)) &&
              s.FedAfter(n) == was.fed + was.input)
  }

  /** What a step did to one session: nothing; or its input was fed and it has
      less to do; or it ended, with its outcome, or failed. It fails only with
      the forward or when the request alone fails. */
  ghost predicate Stepped(s: DecodeSession, take: nat, was: Before, ok: bool)
    reads s.Footprint()
  {
    s.Valid() &&
    if take == 0 then Untouched(s, was)
    else
      was.finish.None? && Remaining(s) < was.remaining && was.streamed <= s.streamed && s.Taken() == was.taken &&
      (s.finish.None? ==> ok && s.fed == was.fed + was.input) &&
      (s.finish.Some? ==> s.Result().Some? || s.poisoned) &&
      (ok && s.finish.Some? && s.Result().None? ==> Solo(s.q) == RequestFails || Misshapen(s.q))
  }

  ghost function Inputs(was: seq<Before>): (r: seq<nat>)
    ensures |r| == |was|
  {
    seq(|was|, k requires 0 <= k < |was| => |was[k].input|)
  }

  /** Forward the next input of one session. */
  method ForwardOne(s: DecodeSession, take: nat, ghost was: Before) returns (ok: bool, n: nat, row: Logits)
    requires Chosen(s, take, was) && take > 0
    modifies s.state
    ensures Sent(s, take, was, ok, n, row)
    ensures !ok ==> !s.q.env.sure(was.fed, was.input)
  {
    hide ModelState.Holds, SoloRun;
    s.HasInput();
    var tokens := s.Input(take);
    n, row := |tokens|, [];
    var all := s.state.Forward(s.q.env.compute, s.q.env.sure, tokens, |s.fed|, false, s.q.env.maxSeq, s.fed);
    if all.None? {
      return false, n, row;
    }
    assert tokens[..n] == tokens;
    assert s.fed + tokens == s.FedAfter(n);
    return true, n, all.value[n - 1];
  }

  /** Hand one session its logits; its own error fails it alone. */
  method FeedOne(s: DecodeSession, take: nat, ghost was: Before, n: nat, row: Logits)
    requires Sent(s, take, was, true, n, row) && take > 0 && CacheOk(s.cache)
    modifies s, s.state, s.Texts(), s.cache
    ensures Stepped(s, take, was, true) && CacheOk(s.cache)
  {
    hide PromptCache.Valid, Sound, ModelState.Holds, Solo, SoloRun;
    var ok := s.Feed(n, row);
    if !ok {
      s.Fail();
    }
  }

  method FailOne(s: DecodeSession, take: nat, ghost was: Before, n: nat, row: Logits)
    requires Sent(s, take, was, false, n, row) && take > 0
    modifies s
    ensures Stepped(s, take, was, false)
  {
    hide ModelState.Holds, Solo, SoloRun;
    s.Fail();
  }

  lemma SentAnyway(s: DecodeSession, take: nat, was: Before, one: bool, ok: bool, n: nat, row: Logits)
    requires Sent(s, take, was, one, n, row) && (ok ==> one)
    ensures Sent(s, take, was, ok, n, row)
  {
  }

  lemma SentLength(s: DecodeSession, take: nat, was: Before, ok: bool, n: nat, row: Logits)
    requires Sent(s, take, was, ok, n, row)
    ensures n == |was.input|
  {
  }

  lemma Skipped(s: DecodeSession, take: nat, was: Before)
    requires Chosen(s, take, was) && take == 0
    ensures forall ok, row :: Sent(s, take, was, ok, 0, row)
  {
  }

  lemma SkippedToo(s: DecodeSession, take: nat, was: Before, ok: bool, n: nat, row: Logits)
    requires Sent(s, take, was, ok, n, row) && take == 0
    ensures Stepped(s, take, was, ok)
  {
  }

  /** The forward of some session that takes part may fail. */
  ghost predicate SomeoneFails(ss: seq<DecodeSession>, takes: seq<nat>, was: seq<Before>)
    requires |takes| == |was| == |ss|
  {
    exists k | 0 <= k < |ss| :: takes[k] > 0 && !ss[k].q.env.sure(was[k].fed, was[k].input)
  }

  /** The inputs of all chosen sessions go through one forward. */
  method ForwardAll(ss: seq<DecodeSession>, ghost cache: PromptCache?, takes: seq<nat>, ghost was: seq<Before>)
    returns (ok: bool, lens: seq<nat>, rows: seq<Logits>)
    requires Apart(ss, cache) && |takes| == |was| == |ss|
    requires forall k | 0 <= k < |ss| :: Chosen(ss[k], takes[k], was[k])
    modifies set k | 0 <= k < |ss| :: ss[k].state
    ensures |lens| == |rows| == |ss| && lens == Inputs(was)
    ensures forall k | 0 <= k < |ss| :: Sent(ss[k], takes[k], was[k], ok, lens[k], rows[k])
    ensures !ok ==> SomeoneFails(ss, takes, was)
  {
    hide Chosen, Sent, Apart, Owned, Untouched, DecodeSession.Running, DecodeSession.Valid,
         DecodeSession.Awaits, DecodeSession.FedAfter;
    ok, lens, rows := true, [], [];
    for i := 0 to |ss|
      invariant |lens| == |rows| == i && forall k | 0 <= k < i :: lens[k] == |was[k].input|
      invariant forall k | i <= k < |ss| :: Chosen(ss[k], takes[k], was[k])
      invariant forall k | 0 <= k < i :: Sent(ss[k], takes[k], was[k], ok, lens[k], rows[k])
      invariant !ok ==> SomeoneFails(ss, takes, was)
    {
      ApartFrom(ss, cache, i);
      var n: nat, row: Logits := 0, [];
      if takes[i] > 0 {
        var one: bool;
        label before:
        one, n, row := ForwardOne(ss[i], takes[i], was[i]);
        forall k | i < k < |ss| ensures Chosen(ss[k], takes[k], was[k]) {
          assert old@before(Chosen(ss[k], takes[k], was[k]));
          assert ss[i].state !in ss[k].Footprint();
        }
        forall k | 0 <= k < i ensures Sent(ss[k], takes[k], was[k], ok && one, lens[k], rows[k]) {
          assert old@before(Sent(ss[k], takes[k], was[k], ok, lens[k], rows[k]));
          assert ss[i].state !in ss[k].Footprint();
          SentAnyway(ss[k], takes[k], was[k], ok, ok && one, lens[k], rows[k]);
        }
        SentAnyway(ss[i], takes[i], was[i], one, ok && one, n, row);
        ok := ok && one;
      } else {
        Skipped(ss[i], takes[i], was[i]);
      }
      SentLength(ss[i], takes[i], was[i], ok, n, row);
      lens, rows := lens + [n], rows + [row];
    }
  }

  /** Each chosen session gets its logits, or learns that the forward failed. */
  method FeedAll(ss: seq<DecodeSession>, cache: PromptCache?, takes: seq<nat>, ghost was: seq<Before>,
                 ok: bool, lens: seq<nat>, rows: seq<Logits>)
    requires Apart(ss, cache) && |takes| == |was| == |lens| == |rows| == |ss| && CacheOk(cache)
    requires forall k | 0 <= k < |ss| :: Sent(ss[k], takes[k], was[k], ok, lens[k], rows[k])
    modifies Owned(ss), cache
    ensures CacheOk(cache)
    ensures forall k | 0 <= k < |ss| :: Stepped(ss[k], takes[k], was[k], ok)
  {
    hide Apart, Owned, Chosen, Sent, Stepped, Untouched, CacheOk, DecodeSession.Running, DecodeSession.Valid;
    for i := 0 to |ss|
      invariant CacheOk(cache)
      invariant forall k | i <= k < |ss| :: Sent(ss[k], takes[k], was[k], ok, lens[k], rows[k])
      invariant forall k | 0 <= k < i :: Stepped(ss[k], takes[k], was[k], ok)
    {
      ApartFrom(ss, cache, i);
      if takes[i] == 0 {
        SkippedToo(ss[i], takes[i], was[i], ok, lens[i], rows[i]);
      } else if ok {
        FeedOne(ss[i], takes[i], was[i], lens[i], rows[i]);
      } else {
        SentAnyway(ss[i], takes[i], was[i], false, false, lens[i], rows[i]);
        FailOne(ss[i], takes[i], was[i], lens[i], rows[i]);
      }
    }
  }

  function Needs(ss: seq<DecodeSession>): (r: seq<Need>)
    reads ss
    ensures |r| == |ss| && forall i | 0 <= i < |ss| :: r[i] == NeedOf(ss[i])
  {
    seq(|ss|, i requires 0 <= i < |ss| reads ss => NeedOf(ss[i]))
  }

  lemma SeenFits(s: DecodeSession, take: nat, was: Before)
    requires Chosen(s, take, was)
    ensures |was.input| <= take && Untouched(s, was) && (was.input == [] <==> take == 0)
    ensures NeedOf(s).OneToken? && take == 1 ==> |was.input| == 1
    ensures NeedOf(s).Prefilling? && take > 0 ==> |was.input| == take || |was.fed| + |was.input| in s.plan.pauses
  {
    hide DecodeSession.Running, DecodeSession.Valid, Remaining;
    if NeedOf(s).Prefilling? && take > 0 {
      ChosenRuns(s, take, was);
      s.HasInput();
    }
  }

  lemma ChosenRuns(s: DecodeSession, take: nat, was: Before)
    requires Chosen(s, take, was) && take > 0
    ensures s.Running()
  {
    hide DecodeSession.Running, Remaining;
  }

  /** A prefilling session is fed less than its chunk, and not up to a pause. */
  ghost predicate Starved(s: DecodeSession, need: Need, was: Before, chunk: nat) {
    need.Prefilling? && |was.input| < Min(chunk, need.left) &&
    (was.input == [] || |was.fed| + |was.input| !in s.plan.pauses)
  }

  /** What the sessions are fed: one token each that decodes, nothing to a
      finished one; a prefilling one is starved only if the budget is spent. */
  ghost predicate Shared(ss: seq<DecodeSession>, needs: seq<Need>, chunk: nat, budget: nat, takes: seq<nat>,
                         was: seq<Before>) {
    |ss| == |needs| == |takes| == |was| &&
    forall k | 0 <= k < |ss| ::
      |was[k].input| <= takes[k] && (needs[k].Nothing? ==> takes[k] == 0) && (needs[k].OneToken? ==> |was[k].input| == 1) &&
      (needs[k].Prefilling? ==> takes[k] <= Min(chunk, needs[k].left) && |was[k].fed| + needs[k].left == |ss[k].q.prompt|) &&
      (Starved(ss[k], needs[k], was[k], chunk) ==> GrantedUpTo(needs, takes, k) >= AtLeastOne(budget))
  }

  lemma SharedOne(s: DecodeSession, needs: seq<Need>, chunk: nat, budget: nat, takes: seq<nat>, was: Before, k: nat)
    requires k < |needs| && takes == Takes(needs, chunk, budget, true) && needs[k] == NeedOf(s)
    requires Chosen(s, takes[k], was) && AllSpent(needs, chunk, budget, takes)
    ensures |was.input| <= takes[k] && (needs[k].Nothing? ==> takes[k] == 0) && (needs[k].OneToken? ==> |was.input| == 1)
    ensures needs[k].Prefilling? ==> takes[k] <= Min(chunk, needs[k].left) && |was.fed| + needs[k].left == |s.q.prompt|
    ensures Starved(s, needs[k], was, chunk) ==> GrantedUpTo(needs, takes, k) >= AtLeastOne(budget)
  {
    hide Chosen, Takes, GrantedUpTo, NeedOf;
    TakesFit(needs, chunk, budget, true, k);
    SeenFits(s, takes[k], was);
    ChosenValid(s, takes[k], was);
    StillNeeded(s);
  }

  lemma SharedAll(ss: seq<DecodeSession>, chunk: nat, budget: nat, takes: seq<nat>, was: seq<Before>)
    requires Planned(ss, chunk, budget, takes, was)
    ensures Shared(ss, Needs(ss), chunk, budget, takes, was)
  {
    hide Chosen, Takes, Starved, GrantedUpTo, AllSpent, NeedOf, Decoders, Sum, Owned, DecodeSession.Valid;
    var needs := Needs(ss);
    forall k | 0 <= k < |ss| ensures needs[k].Prefilling? ==> needs[k].left > 0 {
      ChosenValid(ss[k], takes[k], was[k]);
      StillNeeded(ss[k]);
    }
    EveryBudgetSpent(needs, chunk, budget);
    forall k: nat | k < |ss|
      ensures |was[k].input| <= takes[k] && (needs[k].Nothing? ==> takes[k] == 0)
      ensures needs[k].OneToken? ==> |was[k].input| == 1
      ensures needs[k].Prefilling? ==>
        takes[k] <= Min(chunk, needs[k].left) && |was[k].fed| + needs[k].left == |ss[k].q.prompt|
      ensures Starved(ss[k], needs[k], was[k], chunk) ==> GrantedUpTo(needs, takes, k) >= AtLeastOne(budget)
    {
      SharedOne(ss[k], needs, chunk, budget, takes, was[k], k);
    }
  }

  lemma ChosenValid(s: DecodeSession, take: nat, was: Before)
    requires Chosen(s, take, was)
    ensures s.Valid()
  {
    hide DecodeSession.Running, DecodeSession.Valid, Remaining;
  }

  lemma SeeAll(ss: seq<DecodeSession>, takes: seq<nat>) returns (was: seq<Before>)
    requires |takes| == |ss|
    requires forall k | 0 <= k < |ss| :: ss[k].Valid() && (takes[k] > 0 ==> ss[k].finish.None?)
    ensures |was| == |ss| && forall k | 0 <= k < |ss| :: Chosen(ss[k], takes[k], was[k])
  {
    hide DecodeSession.Running, DecodeSession.Valid, Remaining;
    was := [];
    for i := 0 to |ss|
      invariant |was| == i && forall k | 0 <= k < i :: Chosen(ss[k], takes[k], was[k])
    {
      was := was + [Seen(ss[i], takes[i])];
    }
  }

  /** Each session's share of the step that is about to happen. */
  ghost predicate Planned(ss: seq<DecodeSession>, chunk: nat, budget: nat, takes: seq<nat>, was: seq<Before>)
    reads ss, Owned(ss)
  {
    takes == Takes(Needs(ss), chunk, budget, true) && |was| == |ss| &&
    (forall k | 0 <= k < |ss| :: Chosen(ss[k], takes[k], was[k])) &&
    Sum(Inputs(was)) <= AtLeastOne(budget) + Decoders(Needs(ss))
  }

  lemma StatesOwned(ss: seq<DecodeSession>)
    ensures forall k | 0 <= k < |ss| :: ss[k].state in Owned(ss)
  {
    forall k | 0 <= k < |ss| ensures ss[k].state in Owned(ss) {
      assert ss[k].state in ss[k].Footprint();
    }
  }

  lemma InputsBounded(needs: seq<Need>, chunk: nat, budget: nat, was: seq<Before>)
    requires |was| == |needs|
    requires forall k | 0 <= k < |was| :: |was[k].input| <= Takes(needs, chunk, budget, true)[k]
    ensures Sum(Inputs(was)) <= AtLeastOne(budget) + Decoders(needs)
  {
    SumMonotone(Inputs(was), Takes(needs, chunk, budget, true));
    GrantsBounded(needs, chunk, budget, true);
    PrefillBounded(needs, chunk, budget, true);
  }

  lemma PlanStep(ss: seq<DecodeSession>, chunk: nat, budget: nat) returns (takes: seq<nat>, was: seq<Before>)
    requires forall k | 0 <= k < |ss| :: ss[k].Valid()
    ensures Planned(ss, chunk, budget, takes, was)
    ensures |takes| == |was| == |ss| && takes == Takes(Needs(ss), chunk, budget, true)
    ensures forall k | 0 <= k < |ss| :: Chosen(ss[k], takes[k], was[k]) && Untouched(ss[k], was[k])
  {
    hide DecodeSession.Running, DecodeSession.Valid, Remaining, Takes, Decoders, Sum, Owned, Chosen, Untouched;
    takes := Takes(Needs(ss), chunk, budget, true);
    forall k | 0 <= k < |ss| && takes[k] > 0 ensures ss[k].finish.None? {
      TakesFit(Needs(ss), chunk, budget, true, k);
    }
    was := SeeAll(ss, takes);
    forall k | 0 <= k < |ss| ensures |was[k].input| <= takes[k] && Untouched(ss[k], was[k]) {
      SeenFits(ss[k], takes[k], was[k]);
    }
    InputsBounded(Needs(ss), chunk, budget, was);
  }

  /** One step over the sessions. It returns the number of tokens forwarded. */
  method Step(ss: seq<DecodeSession>, cache: PromptCache?, chunk: nat, budget: nat,
              ghost takes: seq<nat>, ghost was: seq<Before>)
    returns (total: nat, ghost forwarded: bool)
    requires Apart(ss, cache) && CacheOk(cache) && Planned(ss, chunk, budget, takes, was)
    modifies Owned(ss), cache
    ensures CacheOk(cache) && |takes| == |was| == |ss| && Shared(ss, old(Needs(ss)), chunk, budget, takes, was)
    ensures forall k | 0 <= k < |ss| :: Stepped(ss[k], takes[k], was[k], forwarded)
    ensures total == Sum(Inputs(was)) <= AtLeastOne(budget) + Decoders(old(Needs(ss)))
    ensures !forwarded ==> SomeoneFails(ss, takes, was)
  {
    hide Apart, Owned, Chosen, Sent, Stepped, Untouched, CacheOk, DecodeSession.Running, DecodeSession.Valid, Takes,
         Decoders, Shared;
    SharedAll(ss, chunk, budget, takes, was);
    var grants := Choose(Needs(ss), chunk, budget);
    forall k | 0 <= k < |ss| ensures Chosen(ss[k], takes[k], was[k]) {
      assert old(Chosen(ss[k], takes[k], was[k])) && ss[k].state in ss[k].Footprint();
    }
    StatesOwned(ss);
    var ok, lens, rows := ForwardAll(ss, cache, grants, was);
    FeedAll(ss, cache, grants, was, ok, lens, rows);
    return Sum(lens), ok;
  }

  // ----- any schedule of steps -----------------------------------------------------

  /** Only a forward, or the request itself, can keep a session from its
      outcome. */
  ghost predicate MayFail(q: Request) {
    !ForwardsSure(q.env) || Misshapen(q) || Solo(q) == RequestFails
  }

  /** How a session that was running ends: with the outcome of its request
      alone, unless the request may fail. */
  ghost predicate Settled(s: DecodeSession)
    reads s
  {
    s.finish.Some? ==>
      match s.Result()
      case Some(o) => Solo(s.q) == Completed(o, s.fed)
      case None => MayFail(s.q)
  }

  ghost predicate SettledBefore(q: Request, was: Before) {
    was.finish.Some? ==>
      match was.result
      case Some(o) => Solo(q) == Completed(o, was.fed)
      case None => MayFail(q)
  }

  lemma StepSettles(s: DecodeSession, take: nat, was: Before, ok: bool)
    requires Stepped(s, take, was, ok) && SettledBefore(s.q, was) && (!ok ==> !ForwardsSure(s.q.env))
    ensures s.Valid() && Settled(s) && Remaining(s) <= was.remaining
    ensures take > 0 ==> Remaining(s) < was.remaining
  {
    hide Solo, SoloRun, Misshapen, ForwardsSure, ModelState.Holds, Remaining;
  }

  lemma StillNeeded(s: DecodeSession)
    requires s.Valid()
    ensures s.finish.None? <==> !NeedOf(s).Nothing?
    ensures NeedOf(s).Prefilling? ==> NeedOf(s).left > 0 && |s.fed| + NeedOf(s).left == |s.q.prompt|
  {
    hide SoloRun, Solo, ModelState.Holds;
  }

  lemma Measure(ss: seq<DecodeSession>) returns (work: seq<nat>)
    ensures |work| == |ss| && forall k | 0 <= k < |ss| :: Remaining(ss[k]) == work[k]
  {
    work := [];
    for i := 0 to |ss|
      invariant |work| == i && forall k | 0 <= k < i :: Remaining(ss[k]) == work[k]
    {
      work := work + [Remaining(ss[i])];
    }
  }

  lemma AdvancedAll(ss: seq<DecodeSession>, takes: seq<nat>, was: seq<Before>, ok: bool) returns (less: seq<nat>)
    requires |takes| == |was| == |ss|
    requires forall k | 0 <= k < |ss| :: SettledBefore(ss[k].q, was[k]) && (!ok ==> !ForwardsSure(ss[k].q.env))
    requires forall k | 0 <= k < |ss| :: Stepped(ss[k], takes[k], was[k], ok)
    ensures |less| == |ss|
    ensures forall k | 0 <= k < |ss| :: ss[k].Valid() && Settled(ss[k]) && Remaining(ss[k]) == less[k]
    ensures forall k | 0 <= k < |ss| :: less[k] <= was[k].remaining && (takes[k] > 0 ==> less[k] < was[k].remaining)
  {
    hide Stepped, Settled, SettledBefore, ForwardsSure, Remaining, DecodeSession.Running, DecodeSession.Valid;
    less := Measure(ss);
    forall k | 0 <= k < |ss|
      ensures ss[k].Valid() && Settled(ss[k])
      ensures less[k] <= was[k].remaining && (takes[k] > 0 ==> less[k] < was[k].remaining)
    {
      StepSettles(ss[k], takes[k], was[k], ok);
    }
  }

  lemma NotSure(env: Env, ss: seq<DecodeSession>, takes: seq<nat>, was: seq<Before>)
    requires |takes| == |was| == |ss| && SomeoneFails(ss, takes, was)
    requires forall k | 0 <= k < |ss| :: ss[k].q.env == env
    ensures !ForwardsSure(env)
  {
  }

  /** One step of a run. */
  method Advance(env: Env, ss: seq<DecodeSession>, cache: PromptCache?, chunk: nat, budget: nat, ghost work: seq<nat>,
                 ghost i: nat)
    returns (ghost less: seq<nat>)
    requires Apart(ss, cache) && CacheOk(cache) && forall k | 0 <= k < |ss| :: ss[k].Valid() && ss[k].q.env == env
    requires |work| == |ss| && forall k | 0 <= k < |ss| :: Settled(ss[k]) && Remaining(ss[k]) == work[k]
    requires chunk > 0 && i < |ss| && ss[i].finish.None?
    modifies Owned(ss), cache
    ensures CacheOk(cache) && forall k | 0 <= k < |ss| :: ss[k].Valid()
    ensures |less| == |ss| && forall k | 0 <= k < |ss| :: Settled(ss[k]) && Remaining(ss[k]) == less[k]
    ensures Sum(less) < Sum(work)
  {
    hide Apart, Owned, Chosen, Stepped, Planned, CacheOk, MayFail, Solo, Remaining, DecodeSession.Running,
         DecodeSession.Valid, Takes, Decoders, Sum, SomeoneFails, ForwardsSure;
    ghost var moved := Mover(ss, chunk, budget, i);
    ghost var takes, was := PlanStep(ss, chunk, budget);
    forall k | 0 <= k < |ss| ensures SettledBefore(ss[k].q, was[k]) && was[k].remaining == work[k] {
      assert Untouched(ss[k], was[k]) && Settled(ss[k]);
    }
    var total, ok := Step(ss, cache, chunk, budget, takes, was);
    if !ok {
      NotSure(env, ss, takes, was);
    }
    less := AdvancedAll(ss, takes, was, ok);
    assert less[moved] < work[moved];
    SumMonotone(less, work);
  }

  lemma Mover(ss: seq<DecodeSession>, chunk: nat, budget: nat, i: nat) returns (k: nat)
    requires forall k | 0 <= k < |ss| :: ss[k].Valid()
    requires chunk > 0 && i < |ss| && ss[i].finish.None?
    ensures k < |ss| && Takes(Needs(ss), chunk, budget, true)[k] > 0
  {
    hide DecodeSession.Running, DecodeSession.Valid, NeedOf, Takes;
    forall k | 0 <= k < |ss| ensures Needs(ss)[k].Prefilling? ==> Needs(ss)[k].left > 0 {
      StillNeeded(ss[k]);
    }
    StillNeeded(ss[i]);
    k := SomeoneAdvances(Needs(ss), chunk, budget, i);
  }

  lemma NothingMayFail(q: Request)
    requires ForwardsSure(q.env) && NeverFails(q.env)
    ensures !MayFail(q)
  {
    hide Solo;
    SoloAnswers(q);
  }

  /** Any schedule of chunk sizes and budgets finishes every session, each with
      the outcome of its request alone unless something it needs may fail. */
  method RunAll(env: Env, ss: seq<DecodeSession>, cache: PromptCache?, schedule: nat -> (nat, nat))
    requires Apart(ss, cache) && CacheOk(cache)
    requires forall k | 0 <= k < |ss| :: ss[k].Valid() && ss[k].finish.None? && ss[k].q.env == env
    requires forall t :: schedule(t).0 > 0
    modifies Owned(ss), cache
    ensures CacheOk(cache)
    ensures forall k | 0 <= k < |ss| :: ss[k].Valid() && ss[k].finish.Some? && Settled(ss[k])
    ensures ForwardsSure(env) && NeverFails(env) ==>
      forall k | 0 <= k < |ss| :: ss[k].Result().Some? && Solo(ss[k].q) == Completed(ss[k].Result().value, ss[k].fed)
  {
    hide Apart, Owned, CacheOk, DecodeSession.Running, DecodeSession.Valid, Sum, Remaining, MayFail, Solo, ForwardsSure,
         NeverFails;
    var t := 0;
    var i := 0;
    ghost var work := Measure(ss);
    while i < |ss|
      invariant i <= |ss| && CacheOk(cache)
      invariant forall k | 0 <= k < |ss| :: ss[k].Valid() && Settled(ss[k])
      invariant forall k | 0 <= k < i :: ss[k].finish.Some?
      invariant |work| == |ss| && forall k | 0 <= k < |ss| :: Remaining(ss[k]) == work[k]
      decreases Sum(work), |ss| - i
    {
      if ss[i].finish.Some? {
        i := i + 1;
      } else {
        work := Advance(env, ss, cache, schedule(t).0, schedule(t).1, work, i);
        t, i := t + 1, 0;
      }
    }
    if ForwardsSure(env) && NeverFails(env) {
      forall k | 0 <= k < |ss| ensures !MayFail(ss[k].q) {
        NothingMayFail(ss[k].q);
      }
    }
  }
}
