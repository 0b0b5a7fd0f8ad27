/** Externally stepped sessions: a request generated one forward at a time, with
    its own copy of the output bookkeeping. */
module BatchSessions {
  import opened Wrappers
  import opened States
  import opened StopStrings
  import opened PromptCaches
  import opened Reasoning
  import opened Decoding
  import opened DecodeLoops
  import opened Generators

  /** The reference run of the request. */
  ghost function SoloRun(q: Request): Decoding.Run {
    Resume(q, q.prompt, FirstProgress(q), FirstRng(q))
  }

  lemma SoloEnds(q: Request)
    ensures Solo(q) == Finalize(q, SoloRun(q))
  {
  }

  lemma FailedRun(q: Request)
    requires SoloRun(q) == RunFails
    ensures Solo(q) == RequestFails
  {
  }

  /** Logits of the wrong size inside the prompt: the request alone never looks
      at them, a session whose chunk ends there does. */
  ghost predicate Misshapen(q: Request) {
    exists n: nat :: 0 < n < |q.prompt| && |Logit(q.env.compute, q.prompt[..n])| != q.env.vocab
  }

  lemma PromptRun(q: Request)
    ensures SoloRun(q) == Resume(q, q.prompt, FirstProgress(q), FirstRng(q))
  {
  }

  lemma RunMisshapen(q: Request, fed: seq<Token>, em: Progress, rng: nat)
    requires SoloRun(q) == Resume(q, fed, em, rng) && |Logit(q.env.compute, fed)| != q.env.vocab
    ensures Solo(q) == RequestFails
  {
    FailedRun(q);
  }

  lemma PlanFromStart(plan: Plan, start: nat, end: nat, recurrent: bool)
    requires PlanOk(plan, start, end, recurrent)
    ensures PlanOk(plan, 0, end, recurrent)
  {
  }

  function AtLeastOne(n: nat): nat {
    if n < 1 then 1 else n
  }

  // ----- output without a callback -------------------------------------------------

  /** The reference sink of a session that has streamed these pieces. */
  ghost function SinkOf(splitter: Option<Split>, streamed: seq<Piece>): Sink {
    var shown := Reasoning.Show(streamed);
    Sink(splitter, shown.text, shown.reasoning, streamed)
  }

  /** Pieces that nobody refuses are all streamed. */
  lemma {:induction false} AllStreamed(q: Request, splitter: Option<Split>, streamed: seq<Piece>, pieces: seq<Piece>)
    requires NeverBreaks(q)
    ensures Dispatch(q, Flow(SinkOf(splitter, streamed), false), pieces) == Flow(SinkOf(splitter, streamed + pieces), false)
    decreases |pieces|
  {
    hide Reasoning.Show;
    if pieces == [] {
      assert streamed + pieces == streamed;
    } else {
      var p := pieces[0];
      OneStreamed(splitter, streamed, p);
      AllStreamed(q, splitter, streamed + [p], pieces[1..]);
      assert streamed + [p] + pieces[1..] == streamed + pieces;
      assert !q.breaks(streamed + [p]);
    }
  }

  lemma OneStreamed(splitter: Option<Split>, streamed: seq<Piece>, p: Piece)
    ensures var before, after := SinkOf(splitter, streamed), SinkOf(splitter, streamed + [p]);
      after == (if p.reasoning then before.(reasoning := before.reasoning + p.text)
                else before.(text := before.text + p.text)).(delivered := streamed + [p])
  {
    ShowAppend(streamed, [p]);
    assert [p][1..] == [];
  }

  /** What is reported of a finished session. */
  datatype SessionOutcome = SessionOutcome(tokens: seq<Token>, finish: Finish, stop: Option<nat>, completion: nat)

  /** The same of a reference output. */
  function Brief(o: Output): SessionOutcome {
    SessionOutcome(o.tokens, o.finish, o.stop, o.completion)
  }

  /** One request being generated, stepped by a scheduler. */
  class DecodeSession {
    const q: Request
    const state: ModelState
    const cache: PromptCache?
    const plan: Plan
    const stops: StopMatcher
    const splitter: ReasoningSplitter?
    var fed: seq<Token>
    var out: seq<Token>
    /** The sampled token to feed next (decode phase). */
    var next: Token
    var rng: nat
    var decoding: bool
    /** Streamed pieces nobody has taken yet. */
    var events: seq<Piece>
    /** All pieces streamed so far. */
    ghost var streamed: seq<Piece>
    var completion: nat
    var finish: Option<Finish>
    var stop: Option<nat>
    /** A forward failed: the state no longer matches `fed`. */
    var poisoned: bool

    /** The automata the output goes through. */
    ghost function Texts(): set<object?> {
      {stops} + if splitter == null then {} else {splitter}
    }

    ghost function Footprint(): set<object?> {
      {this, state} + Texts()
    }

    ghost function SinkNow(): Sink
      reads this, splitter
    {
      SinkOf(if splitter == null then None else Some(splitter.State()), streamed)
    }

    /** The output so far, as the reference run counts it. */
    ghost function Now(): Progress
      reads this, stops, splitter
    {
      Progress(out, stops.pending, stops.matched, SinkNow(), completion)
    }

    /** How many pieces were taken. */
    ghost function Taken(): nat
      reads this
    {
      if |events| <= |streamed| then |streamed| - |events| else 0
    }

    /** What the session has to say once it is finished. */
    ghost function Produced(): Output
      requires finish.Some?
      reads this
    {
      var shown := Reasoning.Show(streamed);
      Output(out, shown.text, shown.reasoning, streamed, finish.value, stop, completion)
    }

    /** The output of a session that came to its own end. */
    ghost function Result(): (r: Option<Output>)
      reads this
      ensures r.Some? ==> finish.Some? && r.value.delivered == streamed && Outcome() == Brief(r.value)
    {
      if finish.Some? && finish != Some(Aborted) && !poisoned then Some(Produced()) else None
    }

    function Outcome(): SessionOutcome
      requires finish.Some?
      reads this
    {
      SessionOutcome(out, finish.value, stop, completion)
    }

    /** What never changes. */
    ghost predicate Shape()
      reads Footprint()
    {
      stops.Valid() && stops.stops == Stops(q) && Fits(q) && q.params.maxTokens > 0 && NeverBreaks(q) &&
      |events| <= |streamed| && events == streamed[Taken()..] && PlanOk(plan, 0, |q.prompt|, state.recurrent)
    }

    /** `fed` is how far the session is into its reference run. */
    ghost predicate OnTrack()
      reads Footprint()
    {
      if decoding then
        |fed| + 1 == |q.prompt| + completion && completion < q.params.maxTokens &&
        SoloRun(q) == Resume(q, fed + [next], Now(), rng)
      else
        fed < q.prompt && Now() == FirstProgress(q) && rng == FirstRng(q)
    }

    ghost predicate Running()
      reads Footprint()
    {
      Shape() && finish.None? && !poisoned && OnTrack()
    }

    ghost predicate Over()
      reads Footprint()
    {
      Shape() && finish.Some? && (!poisoned ==> state.Holds(fed)) && (poisoned ==> finish == Some(Aborted)) &&
      (Result().Some? ==> Solo(q) == Completed(Result().value, fed))
    }

    ghost predicate Valid()
      reads Footprint()
    {
      Over() || (Running() && state.Holds(fed))
    }

    /** A session whose state already holds `fed`, a proper prefix of the prompt. */
    constructor (q: Request, state: ModelState, cache: PromptCache?, plan: Plan, fed: seq<Token>)
      requires Fits(q) && q.params.maxTokens > 0 && PlanOk(plan, |fed|, |q.prompt|, state.recurrent)
      requires state.Holds(fed) && fed < q.prompt && NeverBreaks(q)
      ensures Valid() && finish.None? && fresh(Footprint() - {state})
      ensures this.q == q && this.state == state && this.cache == cache && this.plan == plan
      ensures this.fed == fed && !decoding && Taken() == 0
    {
      hide ModelState.Holds, Solo, SoloRun, Resume, NeverBreaks, Shape, OnTrack, Over, Fits, PlanOk, FirstProgress;
      this.q, this.state, this.cache, this.plan, this.fed := q, state, cache, plan, fed;
      var m := new StopMatcher(q.params.stop);
      stops := m;
      var sp: ReasoningSplitter? := null;
      if q.params.separate {
        sp := new ReasoningSplitter(q.inReasoning);
      }
      splitter := sp;
      out, next, rng, decoding, completion := [], 0, FirstRng(q), false, 0;
      events, streamed, finish, stop, poisoned := [], [], None, None, false;
      new;
      Begins();
    }

    lemma Begins()
      requires Fits(q) && q.params.maxTokens > 0 && PlanOk(plan, |fed|, |q.prompt|, state.recurrent) && NeverBreaks(q)
      requires fed < q.prompt && !decoding && rng == FirstRng(q) && finish.None? && !poisoned && streamed == events == []
      requires stops.Valid() && stops.stops == Stops(q) && stops.pending == "" && stops.matched.None?
      requires out == [] && completion == 0 && (splitter == null <==> !q.params.separate)
      requires splitter != null ==> splitter.State() == Reasoning.Start(q.inReasoning)
      ensures Running() && Taken() == 0
    {
      hide ModelState.Holds, Solo, SoloRun, Resume, NeverBreaks, PlanOk, Fits, FirstRng;
      PlanFromStart(plan, |fed|, |q.prompt|, state.recurrent);
    }

    /** There is something to feed, and room for it. */
    ghost predicate Ready()
      reads this
    {
      if decoding then |fed| < q.env.maxSeq
      else |fed| < |q.prompt| <= q.env.maxSeq && |q.prompt| in plan.pauses && Ascending(plan.pauses)
    }

    lemma HasInput()
      requires Running()
      ensures Ready()
    {
      hide SoloRun, Resume, FirstProgress, SinkOf, NeverBreaks, FirstRng;
    }

    /** The next input: `max` prompt tokens, or those up to a pause, or the last
        sampled token. */
    function Input(max: nat): (r: seq<Token>)
      requires Ready()
      reads this
      ensures 1 <= |r| <= AtLeastOne(max) && |fed| + |r| <= q.env.maxSeq
      ensures if decoding then r == [next] else |r| <= |q.prompt| - |fed| && r == q.prompt[|fed|..|fed| + |r|]
      ensures !decoding ==> |r| == AtLeastOne(max) || |fed| + |r| in plan.pauses
    {
      if decoding then [next] else PromptChunk(q.prompt, |fed|, plan.pauses, max)
    }

    /** The input was forwarded, the logits are not accounted for yet. */
    ghost predicate Awaits(n: nat)
      reads Footprint()
    {
      Running() && state.Holds(FedAfter(n)) && 1 <= n && (if decoding then n == 1 else |fed| + n <= |q.prompt|)
    }

    ghost function FedAfter(n: nat): seq<Token>
      requires Running()
      reads Footprint()
    {
      if decoding then fed + [next] else if |fed| + n <= |q.prompt| then q.prompt[..|fed| + n] else fed
    }

    /** Account for the forward of the last input of `n` tokens: advance the
        prefill, or sample and emit. An error leaves the session to `Fail`. */
    method Feed(n: nat, logits: Logits) returns (ok: bool)
      requires Awaits(n) && CacheOk(cache) && logits == Logit(q.env.compute, FedAfter(n))
      modifies this, state, Texts(), cache
      ensures Shape() && CacheOk(cache) && Taken() == old(Taken()) && old(streamed) <= streamed
      ensures ok ==> Valid() && fed == old(FedAfter(n)) && (finish.Some? ==> Result().Some?)
      ensures ok && finish.None? ==> decoding == (|fed| >= |q.prompt|)
      ensures ok && finish.None? && old(decoding) ==> completion == old(completion) + 1
      ensures !ok ==> finish.None? && (Misshapen(q) || Solo(q) == RequestFails)
    {
      hide CacheOk, ModelState.Holds, SoloRun, Solo, PlanOk, Produced, Given, Due, SinkOf, NeverBreaks, FirstProgress;
      if |logits| != q.env.vocab {
        WrongSizeFails(n);
        return false;
      }
      if decoding {
        fed := fed + [next];
      } else {
        Prefilled(n);
        if |fed| < |q.prompt| {
          return true;
        }
        StartsDecoding();
      }
      ok := Sample(logits);
    }

    lemma WrongSizeFails(n: nat)
      requires Awaits(n) && |Logit(q.env.compute, FedAfter(n))| != q.env.vocab
      ensures Misshapen(q) || Solo(q) == RequestFails
    {
      hide ModelState.Holds, SoloRun, Solo, Resume, NeverBreaks, PlanOk, SinkOf;
      if decoding {
        RunMisshapen(q, fed + [next], Now(), rng);
      } else if |fed| + n == |q.prompt| {
        assert q.prompt[..|q.prompt|] == q.prompt;
        PromptRun(q);
        RunMisshapen(q, q.prompt, FirstProgress(q), FirstRng(q));
      }
    }

    lemma PlanSnaps()
      requires Shape()
      ensures forall b | b in plan.snaps :: b <= |q.prompt|
    {
    }

    /** Prefill got `n` tokens further; what the plan has due there is done. */
    method Prefilled(n: nat)
      requires Awaits(n) && !decoding && CacheOk(cache)
      modifies this`fed, state, cache
      ensures Shape() && CacheOk(cache) && state.Holds(fed) && fed == old(FedAfter(n)) && fed <= q.prompt
      ensures Now() == FirstProgress(q) && rng == FirstRng(q)
      ensures |fed| < |q.prompt| ==> Running()
      ensures state.ckpt == if plan.checkpoint == Some(|fed|) && state.recurrent then Some(fed) else old(state.ckpt)
      ensures Given(cache, old(OfferedTo(cache)), q.env.key, q.prompt, Due(plan, |fed|, |q.prompt|, state.recurrent))
    {
      hide CacheOk, ModelState.Holds, SoloRun, Solo, Honest, Given, Due, PlanOk, NeverBreaks, SinkOf, FirstProgress, FirstRng,
           Stops, Fits, Produced;
      assert forall b | b in plan.snaps :: b <= |q.prompt| by { PlanSnaps(); }
      fed := q.prompt[..|fed| + n];
      NobodyIsHonest();
      AtPause(q.env.key, q.prompt, plan, fed, state, cache, Nobody());
    }

    /** The whole prompt is fed. */
    method StartsDecoding()
      requires Shape() && fed == q.prompt && Now() == FirstProgress(q) && rng == FirstRng(q)
      modifies this`decoding
      ensures Shape() && decoding && InStep(q, fed, Now()) && SoloRun(q) == Resume(q, fed, Now(), rng)
    {
      hide Resume;
      decoding := true;
    }

    /** Sample, detokenize and check the stop conditions. */
    method Sample(logits: Logits) returns (ok: bool)
      requires Shape() && decoding && finish.None? && !poisoned && state.Holds(fed)
      requires logits == Logit(q.env.compute, fed) && |logits| == q.env.vocab
      requires InStep(q, fed, Now()) && SoloRun(q) == Resume(q, fed, Now(), rng)
      modifies this`next, this`rng, this`out, this`completion, this`events, this`streamed, this`finish, this`stop, Texts()
      ensures Shape() && state.Holds(fed) && Taken() == old(Taken()) && old(streamed) <= streamed
      ensures ok ==> Valid() && (finish.Some? ==> Result().Some?)
      ensures ok && finish.None? ==> completion == old(completion) + 1
      ensures !ok ==> finish.None? && Solo(q) == RequestFails
    {
      hide ModelState.Holds, Finalize, Emit, PlanOk, NeverBreaks, SinkOf, Reasoning.Show, Produced;
      var p := Decoding.Pick(q, rng, logits, out);
      if p.tok.None? {
        FailedRun(q);
        return false;
      }
      rng := p.rng;
      var tok := p.tok.value;
      ghost var was := Now();
      var works, f := Count(tok);
      if !works {
        FailedRun(q);
        return false;
      }
      if f.None? {
        next := tok;
        return true;
      }
      ok := End(f.value);
    }

    /** Account for a sampled token: stop ids, detokenization, stop strings and
        the token budget. */
    method Count(tok: Token) returns (ok: bool, f: Option<Finish>)
      requires Shape()
      modifies this`out, this`completion, this`events, this`streamed, Texts()
      ensures Shape() && Taken() == old(Taken()) && old(streamed) <= streamed
      ensures match Emit(q, old(Now()), tok)
        case EmitFails => !ok
        case Emitted(e, g) => ok && f == g && Now() == e
      ensures ok && f.Some? ==> f.value != Aborted
    {
      hide PushResult, Decoding.Show, Dispatch, SinkOf;
      completion := completion + 1;
      if EndsGeneration(q, tok) {
        return true, Some(Finish.Stop);
      }
      out := out + [tok];
      var delta := q.env.push(q.prompt, out);
      f := None;
      if delta.Fails? {
        return false, None;
      }
      if delta.Text? {
        var safe, hit := stops.Push(delta.s);
        EmitText(safe);
        if hit {
          f := Some(StopString);
        }
      }
      if f.None? && completion >= q.params.maxTokens {
        f := Some(Length);
      }
      return true, f;
    }

    /** Text for the client: buffered, split if reasoning is to be separated. */
    method EmitText(s: string)
      requires NeverBreaks(q) && |events| <= |streamed| && events == streamed[Taken()..]
      modifies this`events, this`streamed, splitter
      ensures Flow(SinkNow(), false) == Decoding.Show(q, old(SinkNow()), s)
      ensures |events| <= |streamed| && events == streamed[Taken()..] && Taken() == old(Taken())
      ensures old(streamed) <= streamed
    {
      hide Reasoning.Show, Dispatch;
      if s == "" {
        return;
      }
      var pieces := [Piece(false, s)];
      if splitter != null {
        pieces := splitter.Push(s);
      }
      AllStreamed(q, if splitter == null then None else Some(splitter.State()), streamed, pieces);
      Buffer(pieces);
    }

    method Buffer(pieces: seq<Piece>)
      requires |events| <= |streamed| && events == streamed[Taken()..]
      modifies this`events, this`streamed
      ensures events == old(events) + pieces && streamed == old(streamed) + pieces
      ensures |events| <= |streamed| && events == streamed[Taken()..] && Taken() == old(Taken())
    {
      events := events + pieces;
      streamed := streamed + pieces;
    }

    /** Release the text held back and finish. */
    method End(finish0: Finish) returns (ok: bool)
      requires Shape() && finish.None? && !poisoned && finish0 != Aborted && state.Holds(fed)
      requires SoloRun(q) == Ended(fed, Now(), finish0)
      modifies this`events, this`streamed, this`finish, this`stop, Texts()
      ensures Shape() && state.Holds(fed) && Taken() == old(Taken()) && old(streamed) <= streamed
      ensures ok ==> Over() && Result().Some?
      ensures !ok ==> finish.None? && Solo(q) == RequestFails
    {
      hide ModelState.Holds, Solo, SoloRun, Finalize, Reasoning.Show, CloseSink, PlanOk, NeverBreaks;
      SoloEnds(q);
      var f;
      ok, f := Drain(finish0, fed);
      if ok {
        CloseText();
        stop := stops.matched;
        finish := Some(f);
      }
    }

    /** The text held back by the detokenizer and the stop matcher. */
    method Drain(finish0: Finish, ghost held: seq<Token>) returns (ok: bool, f: Finish)
      requires Shape() && finish0 != Aborted
      modifies this`events, this`streamed, Texts()
      ensures Shape() && Taken() == old(Taken()) && old(streamed) <= streamed
      ensures f != Aborted
      ensures Finalize(q, Ended(held, old(Now()), finish0)) ==
        if ok then Completed(OutputOf(Now(), CloseSink(q, SinkNow()), f, stops.matched), held) else RequestFails
    {
      hide Reasoning.Show, Dispatch, PushResult, CloseSink, Decoding.Show, SinkOf, PlanOk;
      f := finish0;
      if f.Stop? || f.Length? {
        var rest := q.env.flush(q.prompt, out);
        if rest.Fails? {
          return false, f;
        }
        if rest.Text? {
          var safe, hit := stops.Push(rest.s);
          EmitText(safe);
          if hit {
            f := StopString;
          }
        }
        if !f.StopString? {
          var held := stops.Flush();
          EmitText(held);
        }
      }
      return true, f;
    }

    method CloseText()
      requires NeverBreaks(q) && |events| <= |streamed| && events == streamed[Taken()..]
      modifies this`events, this`streamed, splitter
      ensures SinkNow() == CloseSink(q, old(SinkNow()))
      ensures |events| <= |streamed| && events == streamed[Taken()..] && Taken() == old(Taken())
      ensures old(streamed) <= streamed
    {
      hide Reasoning.Show, Dispatch, Flushed;
      if splitter != null {
        var pieces := splitter.Flush();
        AllStreamed(q, Some(splitter.State()), streamed, pieces);
        Buffer(pieces);
      }
    }

    /** Stop now: the client went away. */
    method Cancel()
      requires Valid()
      modifies this`finish, this`stop
      ensures Valid() && (old(finish).Some? ==> finish == old(finish) && stop == old(stop))
      ensures old(finish).None? ==> finish == Some(Aborted) && stop == None
    {
      hide ModelState.Holds, Solo, SoloRun, Resume, Reasoning.Show, SinkOf, PlanOk, NeverBreaks;
      if finish.None? {
        finish, stop := Some(Aborted), None;
      }
    }

    /** Finish with an error: the state is treated as unusable. */
    method Fail()
      requires Shape() && finish.None?
      modifies this`finish, this`stop, this`poisoned
      ensures Valid() && finish == Some(Aborted) && poisoned
    {
      hide ModelState.Holds, Solo, SoloRun, Resume, Reasoning.Show, SinkOf, PlanOk, NeverBreaks;
      poisoned := true;
      finish, stop := Some(Aborted), None;
    }

    /** Streamed pieces since the last call. */
    method TakeEvents() returns (pieces: seq<Piece>)
      requires Valid()
      modifies this`events
      ensures Valid() && pieces == streamed[old(Taken())..] && Taken() == |streamed|
    {
      hide ModelState.Holds, Solo, SoloRun, Resume, Reasoning.Show, SinkOf, PlanOk, NeverBreaks;
      pieces := events;
      events := [];
    }
  }

  /** Where the next prefill chunk ends: at most `max` tokens on (at least
      one), not past the first pause ahead. */
  function ChunkEnd(pauses: seq<nat>, pos: nat, end: nat, max: nat): (r: nat)
    requires pos < end && end in pauses && Ascending(pauses)
    ensures pos < r <= end && r <= pos + AtLeastOne(max)
    ensures forall p | p in pauses && p > pos :: r <= p
    ensures r == pos + AtLeastOne(max) || r in pauses
  {
    if pauses[0] > pos then
      var stop := pos + AtLeastOne(max);
      assert forall p | p in pauses :: pauses[0] <= p;
      if pauses[0] <= stop then pauses[0] else stop
    else
      assert forall p | p in pauses && p > pos :: p in pauses[1..];
      ChunkEnd(pauses[1..], pos, end, max)
  }

  /** The prompt from `pos` to where the chunk ends. */
  function PromptChunk(prompt: seq<Token>, pos: nat, pauses: seq<nat>, max: nat): (r: seq<Token>)
    requires pos < |prompt| && |prompt| in pauses && Ascending(pauses)
    ensures 1 <= |r| <= AtLeastOne(max) && pos + |r| <= |prompt| && r == prompt[pos..pos + |r|]
    ensures |r| == AtLeastOne(max) || pos + |r| in pauses
  {
    hide ChunkEnd;
    var end := ChunkEnd(pauses, pos, |prompt|, max);
    assert pos + |prompt[pos..end]| == end;
    prompt[pos..end]
  }

  /** A previous session's state and what it holds. */
  datatype Handed = Handed(state: ModelState, fed: seq<Token>)

  ghost predicate HandedOk(given: Option<Handed>)
    reads if given.Some? then {given.value.state} else {}
  {
    given.Some? ==> Carries(given.value.state, given.value.fed)
  }

  /** How much of the prompt the session starts with: as a generator would, on
      the state it is given or on a new one. */
  ghost function StartsAt(key: nat, prompt: seq<Token>, given: Option<Handed>, recurrent: bool, shape: Shape,
                          cache: PromptCache?, prefixCaching: bool): nat
    requires prompt != []
    reads if given.Some? then {given.value.state} else {}, cache
  {
    if given.Some? then StartLength(key, prompt, given.value.state, given.value.fed, cache, prefixCaching)
    else
      var hit := BestCached(cache, key, prompt);
      if hit.Some? && hit.value.snapshot.data.shape == shape && hit.value.snapshot.data.KvAndRecurrent? == recurrent
      then |hit.value.tokens| else 0
  }

  /** The plan is that of a generator that starts with as much. */
  ghost predicate Plans(s: DecodeSession, boundaries: seq<nat>, prefixCaching: bool)
    reads s
  {
    |s.fed| <= |s.q.prompt| &&
    (s.plan.checkpoint.Some? <==> prefixCaching && s.state.recurrent) &&
    (s.plan.checkpoint.Some? ==> s.plan.checkpoint.value == CheckpointAt(boundaries, |s.fed|, |s.q.prompt|)) &&
    (forall p :: p in s.plan.pauses <==>
      p == |s.q.prompt| || (s.state.recurrent && (p in s.plan.snaps || s.plan.checkpoint == Some(p)))) &&
    (s.cache == null ==> s.plan.snaps == []) &&
    (s.cache != null ==> forall b | b in s.plan.snaps :: Wanted(s.cache, boundaries, |s.fed|, |s.q.prompt|, b))
  }

  datatype StartError = NoPrompt | TooLong | NoTokensWanted | Undecodable

  /** Start a request on a fresh state or a previous session's one. */
  method Start(env: Env, prompt0: seq<Token>, params: Params, boundaries: seq<nat>, given: Option<Handed>,
               recurrent: bool, shape: Shape, cache: PromptCache?, prefixCaching: bool)
    returns (r: Result<DecodeSession, StartError>)
    requires HandedOk(given) && CacheOk(cache)
    modifies if given.Some? then {given.value.state} else {}, cache
    ensures CacheOk(cache)
    ensures r.Ok? <==>
      var prompt := Normalized(env, prompt0);
      prompt != [] && |prompt| + params.maxTokens <= env.maxSeq && params.maxTokens > 0 &&
      (params.separate ==> env.opensReasoning(prompt).Some?)
    ensures r.Ok? ==> var s := r.value;
      fresh(s) && s.Valid() && s.finish.None? && !s.decoding && s.Taken() == 0 && NeverBreaks(s.q) && s.cache == cache &&
      s.q.env == env && s.q.params == params && s.q.prompt == Normalized(env, prompt0) &&
      s.q.inReasoning == (params.separate && env.opensReasoning(s.q.prompt).value) &&
      fresh(s.Footprint() - if given.Some? then {given.value.state} else {}) &&
      (given.Some? ==> s.state == given.value.state) && Plans(s, boundaries, prefixCaching) &&
      |s.fed| == old(StartsAt(env.key, Normalized(env, prompt0), given, recurrent, shape, cache, prefixCaching))
  {
    hide CacheOk, ModelState.Holds, SoloRun, HandedOk, DecodeSession.Valid, DecodeSession.Footprint;
    var prompt := Normalized(env, prompt0);
    if prompt == [] {
      return Err(NoPrompt);
    }
    if |prompt| + params.maxTokens > env.maxSeq {
      return Err(TooLong);
    }
    if params.maxTokens == 0 {
      return Err(NoTokensWanted);
    }
    var inReasoning := false;
    if params.separate {
      var opens := env.opensReasoning(prompt);
      if opens.None? {
        return Err(Undecodable);
      }
      inReasoning := opens.value;
    }
    var q := Request(env, prompt, params, inReasoning, (d: seq<Piece>) => false);
    var s := Begin(q, boundaries, given, recurrent, shape, cache, prefixCaching);
    return Ok(s);
  }

  /** Bring the state to the start of the request and plan its prefill. */
  method Begin(q: Request, boundaries: seq<nat>, given: Option<Handed>, recurrent: bool, shape: Shape, cache: PromptCache?,
               prefixCaching: bool)
    returns (s: DecodeSession)
    requires HandedOk(given) && CacheOk(cache) && Fits(q) && q.params.maxTokens > 0 && NeverBreaks(q)
    modifies if given.Some? then {given.value.state} else {}, cache
    ensures CacheOk(cache) && fresh(s) && s.Valid() && s.finish.None? && !s.decoding && s.Taken() == 0
    ensures s.q == q && s.cache == cache && (given.Some? ==> s.state == given.value.state)
    ensures fresh(s.Footprint() - if given.Some? then {given.value.state} else {})
    ensures Plans(s, boundaries, prefixCaching)
    ensures |s.fed| == old(StartsAt(q.env.key, q.prompt, given, recurrent, shape, cache, prefixCaching))
  {
    hide CacheOk, ModelState.Holds, SoloRun, DecodeSession.Valid, AllHonest;
    var state: ModelState, was: seq<Token>;
    if given.Some? {
      state, was := given.value.state, given.value.fed;
    } else {
      state := new ModelState(recurrent, shape);
      was := [];
    }
    NobodyIsHonest();
    var fed := StartUp(q.env.key, q.prompt, state, was, cache, prefixCaching);
    var plan := MakePlan(q.env.key, q.prompt, boundaries, |fed|, state.recurrent, cache, prefixCaching, Nobody());
    AtPause(q.env.key, q.prompt, plan, fed, state, cache, Nobody());
    s := new DecodeSession(q, state, cache, plan, fed);
  }
}
