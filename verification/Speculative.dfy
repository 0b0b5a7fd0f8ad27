/** The two decode loops of the generator: one token per forward, and
    speculative decoding, which verifies several drafted tokens per forward. */
module DecodeLoops {
  import opened Wrappers
  import opened States
  import opened StopStrings
  import opened Decoding
  import opened Emitters

  /** How a decode loop ended; a failed forward is the only outcome the
      reference run does not determine. */
  datatype Decoded = ForwardFailed | Erred | Finished(finish: Finish)

  /** What a drafter proposes; the distribution matters only by its length. */
  datatype Draft = Draft(token: Token, probs: Option<nat>)

  /** Proposals in round `round` for the context, at most `max` wanted. */
  type Drafter = (nat, seq<Token>, nat) -> seq<Draft>

  /** The prompt and everything sampled fit the model. */
  predicate Fits(q: Request) {
    q.prompt != [] && |q.prompt| + q.params.maxTokens <= q.env.maxSeq
  }

  /** `fed` is the prompt and every token that was sampled and fed. */
  ghost predicate InStep(q: Request, fed: seq<Token>, em: Progress) {
    |fed| == |q.prompt| + em.completion
  }

  /** No forward fails. */
  ghost predicate ForwardsSure(env: Env) {
    forall fed: seq<Token>, tokens: seq<Token> :: env.sure(fed, tokens)
  }

  /** A forward of the request may fail: one of its prompt, or past it and within
      its token budget. */
  ghost predicate ForwardUnsure(q: Request) {
    exists fed: seq<Token>, tokens: seq<Token> :: Concerns(q, fed, tokens) && !q.env.sure(fed, tokens)
  }

  predicate Concerns(q: Request, fed: seq<Token>, tokens: seq<Token>) {
    fed + tokens <= q.prompt || (q.prompt <= fed && |fed + tokens| <= |q.prompt| + q.params.maxTokens)
  }

  /** Logits have the right size and greedy sampling always picks a token. */
  ghost predicate SamplesAlways(env: Env) {
    (forall fed :: |Logit(env.compute, fed)| == env.vocab) &&
    forall l: Logits, p: seq<Token>, o: seq<Token> :: |l| == env.vocab ==> env.argmax(l, p, o).Some?
  }

  /** Nor does seeded sampling or the detokenizer fail. */
  ghost predicate NeverFails(env: Env) {
    SamplesAlways(env) &&
    (forall g: nat, l: Logits, p: seq<Token>, o: seq<Token> :: |l| == env.vocab ==> env.draw(g, l, p, o).0.Some?) &&
    (forall p: seq<Token>, o: seq<Token> :: !env.push(p, o).Fails?) &&
    (forall p: seq<Token>, o: seq<Token> :: !env.flush(p, o).Fails?)
  }

  /** Then the reference run comes to an end. */
  lemma {:induction false} ResumeEnds(q: Request, fed: seq<Token>, em: Progress, rng: nat)
    requires NeverFails(q.env)
    ensures Resume(q, fed, em, rng).Ended?
    decreases q.params.maxTokens - em.completion, 1
  {
    hide Emit;
    var p := Pick(q, rng, Logit(q.env.compute, fed), em.out);
    ContinueEnds(q, fed, em, p.rng, p.tok.value);
  }

  lemma {:induction false} ContinueEnds(q: Request, fed: seq<Token>, em: Progress, rng: nat, tok: Token)
    requires NeverFails(q.env)
    ensures Continue(q, fed, em, rng, tok).Ended?
    decreases q.params.maxTokens - em.completion, 0
  {
    EmitWorks(q, em, tok);
    var e := Emit(q, em, tok);
    if e.finish.None? {
      ResumeEnds(q, fed + [tok], e.em, rng);
    }
  }

  lemma EmitWorks(q: Request, em: Progress, tok: Token)
    requires NeverFails(q.env)
    ensures Emit(q, em, tok).Emitted?
  {
    hide PushResult, Decoding.Show;
  }

  /** And the request is answered. */
  lemma SoloAnswers(q: Request)
    requires NeverFails(q.env)
    ensures Solo(q).Completed?
  {
    hide Resume, PushResult, Decoding.Show, CloseSink;
    ResumeEnds(q, q.prompt, FirstProgress(q), FirstRng(q));
  }

  /** One token per forward, from the logits of the last prompt token. */
  method DecodePlain(q: Request, em: Emitter, state: ModelState, fed0: seq<Token>, logits0: Logits)
    returns (r: Decoded, fed: seq<Token>)
    requires em.Valid() && em.q == q && state !in em.Repr && state.Holds(fed0)
    requires Fits(q) && InStep(q, fed0, em.Now())
    requires logits0 == Logit(q.env.compute, fed0) && |logits0| == q.env.vocab && q.prompt <= fed0
    modifies em.Repr, state
    ensures em.Valid()
    ensures r.Finished? ==> Resume(q, fed0, old(em.Now()), FirstRng(q)) == Ended(fed, em.Now(), r.finish)
    ensures r.Finished? ==> state.Holds(fed)
    ensures r.Erred? ==> Resume(q, fed0, old(em.Now()), FirstRng(q)) == RunFails
    ensures r.ForwardFailed? ==> ForwardUnsure(q)
  {
    fed := fed0;
    var logits := logits0;
    var rng := FirstRng(q);
    ghost var goal := Resume(q, fed0, em.Now(), rng);
    while true
      invariant em.Valid() && state.Holds(fed) && InStep(q, fed, em.Now()) && q.prompt <= fed
      invariant logits == Logit(q.env.compute, fed) && |logits| == q.env.vocab
      invariant goal == Resume(q, fed, em.Now(), rng)
      decreases q.params.maxTokens - em.completion
    {
      var p := Decoding.Pick(q, rng, logits, em.out);
      if p.tok.None? {
        return Erred, fed;
      }
      rng := p.rng;
      var tok := p.tok.value;
      var e := em.Token(tok);
      if e.None? {
        return Erred, fed;
      }
      if e.value.Some? {
        return Finished(e.value.value), fed;
      }
      var all := state.Forward(q.env.compute, q.env.sure, [tok], |fed|, false, q.env.maxSeq, fed);
      if all.None? {
        assert Concerns(q, fed, [tok]);
        return ForwardFailed, fed;
      }
      assert [tok][..1] == [tok];
      assert goal == Resume(q, fed + [tok], em.Now(), rng);
      logits := all.value[0];
      fed := fed + [tok];
      if |logits| != q.env.vocab {
        return Erred, fed;
      }
    }
  }

  // ----- speculative decoding ---------------------------------------------------

  function Tokens(ds: seq<Draft>): (r: seq<Token>)
    ensures |r| == |ds| && forall i | 0 <= i < |ds| :: r[i] == ds[i].token
  {
    seq(|ds|, i requires 0 <= i < |ds| => ds[i].token)
  }

  predicate BadDraft(env: Env, d: Draft) {
    d.token >= env.vocab || (d.probs.Some? && d.probs.value != env.vocab)
  }

  /** Keep at most `max` drafts, up to the first unusable one. */
  function Usable(env: Env, ds: seq<Draft>, max: nat): (r: seq<Draft>)
    ensures |r| <= max
  {
    if ds == [] || max == 0 || BadDraft(env, ds[0]) then []
    else [ds[0]] + Usable(env, ds[1..], max - 1)
  }

  /** The logits of row `i` of the verification forward of `batch`. */
  function Row(q: Request, fed: seq<Token>, batch: seq<Token>, i: nat): Logits
    requires i < |batch|
  {
    Logit(q.env.compute, fed + batch[..i + 1])
  }

  /** What the target itself picks after `tok` and the first `n` drafts. */
  ghost function Choice(q: Request, fed: seq<Token>, batch: seq<Token>, out: seq<Token>, n: nat): Option<Token>
    requires n < |batch|
  {
    q.env.argmax(Row(q, fed, batch, n), q.prompt, out + batch[1..n + 1])
  }

  /** From draft `n` on, up to where the target's pick is the next draft. */
  ghost function Agreed(q: Request, fed: seq<Token>, batch: seq<Token>, out: seq<Token>, n: nat): (r: nat)
    requires n < |batch|
    ensures n <= r < |batch|
    ensures forall i | n <= i < r :: Choice(q, fed, batch, out, i) == Some(batch[i + 1])
    decreases |batch| - n
  {
    if n + 1 < |batch| && Choice(q, fed, batch, out, n) == Some(batch[n + 1]) then Agreed(q, fed, batch, out, n + 1)
    else n
  }

  /** Row `i` of a verification forward of `tok` and the drafts. */
  ghost predicate Verified(q: Request, fed: seq<Token>, batch: seq<Token>, all: seq<Logits>) {
    |all| == |batch| &&
    forall i | 0 <= i < |batch| :: all[i] == Row(q, fed, batch, i) && |all[i]| == q.env.vocab
  }

  /** The longest prefix of the drafts the target agrees with, and the token it
      samples after it. */
  method Accept(q: Request, ghost fed: seq<Token>, batch: seq<Token>, all: seq<Logits>, out: seq<Token>)
    returns (accepted: nat, next: Option<Token>)
    requires batch != [] && Verified(q, fed, batch, all)
    ensures accepted == Agreed(q, fed, batch, out, 0) && next == Choice(q, fed, batch, out, accepted)
  {
    var ext := out;
    accepted := 0;
    assert out + batch[1..1] == out;
    while accepted + 1 < |batch|
      invariant accepted < |batch| && ext == out + batch[1..accepted + 1]
      invariant Agreed(q, fed, batch, out, accepted) == Agreed(q, fed, batch, out, 0)
    {
      var t := q.env.argmax(all[accepted], q.prompt, ext);
      if t != Some(batch[accepted + 1]) {
        return accepted, t;
      }
      ext := ext + [batch[accepted + 1]];
      accepted := accepted + 1;
      assert out + batch[1..accepted + 1] == ext;
    }
    next := q.env.argmax(all[accepted], q.prompt, ext);
  }

  // ----- where speculation fails and the plain loop does not ----------------------

  /** The batch of a round: the sampled token and the drafts that may follow it. */
  function BatchOf(q: Request, fed: seq<Token>, completion: nat, tok: Token, round: nat, drafter: Drafter,
                   adapt: nat -> nat): (batch: seq<Token>)
    ensures batch != [] && batch[0] == tok
  {
    [tok] + Tokens(DraftsOf(q, fed, completion, tok, round, drafter, adapt))
  }

  function DraftsOf(q: Request, fed: seq<Token>, completion: nat, tok: Token, round: nat, drafter: Drafter,
                    adapt: nat -> nat): (drafts: seq<Draft>)
    ensures |drafts| == 0 || completion + |drafts| < q.params.maxTokens
    ensures |drafts| == 0 || |fed| + 1 + |drafts| <= q.env.maxSeq
  {
    var room := if completion + 1 < q.params.maxTokens then q.params.maxTokens - completion - 1 else 0;
    var space := if |fed| + 1 < q.env.maxSeq then q.env.maxSeq - (|fed| + 1) else 0;
    var kmax := Min(adapt(round), Min(room, space));
    if kmax > 0 then Usable(q.env, drafter(round, fed + [tok], kmax), kmax) else []
  }

  lemma {:induction false} UsableMeans(env: Env, ds: seq<Draft>, max: nat)
    ensures var r := Usable(env, ds, max);
      r <= ds && (forall d | d in r :: d.token < env.vocab && (d.probs.Some? ==> d.probs.value == env.vocab)) &&
      (|r| < max && |r| < |ds| ==>
        ds[|r|].token >= env.vocab || (ds[|r|].probs.Some? && ds[|r|].probs.value != env.vocab))
  {
    if ds != [] && max > 0 && !BadDraft(env, ds[0]) {
      UsableMeans(env, ds[1..], max - 1);
      assert ds == [ds[0]] + ds[1..];
    }
  }

  /** A round verifies what the drafter proposes, up to the first proposal that is
      not a token of the model, when it is asked for as many as the adaptive
      length, the token budget and the model's length all allow. */
  lemma DraftsMean(q: Request, fed: seq<Token>, completion: nat, tok: Token, round: nat, drafter: Drafter,
                   adapt: nat -> nat)
    returns (wanted: nat)
    ensures wanted <= adapt(round)
    ensures wanted > 0 ==> completion + 1 + wanted <= q.params.maxTokens && |fed| + 1 + wanted <= q.env.maxSeq
    ensures wanted < adapt(round) ==>
      completion + 1 + (wanted + 1) > q.params.maxTokens || |fed| + 1 + (wanted + 1) > q.env.maxSeq
    ensures var drafts, all := DraftsOf(q, fed, completion, tok, round, drafter, adapt), drafter(round, fed + [tok], wanted);
      if wanted == 0 then drafts == []
      else
        drafts <= all && |drafts| <= wanted &&
        (forall d | d in drafts :: d.token < q.env.vocab && (d.probs.Some? ==> d.probs.value == q.env.vocab)) &&
        (|drafts| < wanted && |drafts| < |all| ==>
          var d := all[|drafts|]; d.token >= q.env.vocab || (d.probs.Some? && d.probs.value != q.env.vocab))
  {
    var room := if completion + 1 < q.params.maxTokens then q.params.maxTokens - completion - 1 else 0;
    var space := if |fed| + 1 < q.env.maxSeq then q.env.maxSeq - (|fed| + 1) else 0;
    wanted := Min(adapt(round), Min(room, space));
    UsableMeans(q.env, drafter(round, fed + [tok], wanted), wanted);
  }

  /** A verified row has the wrong size, or the target picks nothing after the
      drafts it agrees with. */
  ghost predicate RoundErrs(q: Request, fed: seq<Token>, batch: seq<Token>, out: seq<Token>)
    requires batch != []
  {
    (exists i | 0 <= i < |batch| :: |Row(q, fed, batch, i)| != q.env.vocab) ||
    Choice(q, fed, batch, out, Agreed(q, fed, batch, out, 0)).None?
  }

  /** From the sampled token `tok` on, some round fails on its rows. */
  ghost predicate Overreaches(q: Request, fed: seq<Token>, em: Progress, tok: Token, round: nat, drafter: Drafter,
                              adapt: nat -> nat)
    decreases q.params.maxTokens - em.completion, 0
  {
    match Emit(q, em, tok)
    case EmitFails => false
    case Emitted(e, Some(_)) => false
    case Emitted(e, None) =>
      var batch := BatchOf(q, fed, e.completion, tok, round, drafter, adapt);
      RoundErrs(q, fed, batch, e.out) ||
      LaterOverreaches(q, fed, e, batch, 1, Agreed(q, fed, batch, e.out, 0), round + 1, drafter, adapt)
  }

  /** The same once the first `keep` tokens of the batch are kept, `accepted`
      drafts being accepted. */
  ghost predicate LaterOverreaches(q: Request, fed: seq<Token>, em: Progress, batch: seq<Token>, keep: nat,
                                   accepted: nat, round: nat, drafter: Drafter, adapt: nat -> nat)
    requires 1 <= keep <= accepted + 1 <= |batch|
    decreases q.params.maxTokens - em.completion, 1
  {
    if keep <= accepted then
      match Emit(q, em, batch[keep])
      case EmitFails => false
      case Emitted(e, Some(_)) => false
      case Emitted(e, None) => LaterOverreaches(q, fed, e, batch, keep + 1, accepted, round, drafter, adapt)
    else
      match q.env.argmax(Logit(q.env.compute, fed + batch[..keep]), q.prompt, em.out)
      case None => false
      case Some(next) => Overreaches(q, fed + batch[..keep], em, next, round, drafter, adapt)
  }

  /** Speculation from the logits after `fed` fails on a row it verifies. */
  ghost predicate SpecOverreaches(q: Request, fed: seq<Token>, em: Progress, drafter: Drafter, adapt: nat -> nat) {
    match q.env.argmax(Logit(q.env.compute, fed), q.prompt, em.out)
    case None => false
    case Some(tok) => Overreaches(q, fed, em, tok, 0, drafter, adapt)
  }

  /** A row with context `context` that speculation cannot use. */
  ghost predicate BadRow(q: Request, context: seq<Token>) {
    |Logit(q.env.compute, context)| != q.env.vocab ||
    exists o: seq<Token> :: q.env.argmax(Logit(q.env.compute, context), q.prompt, o).None?
  }

  /** All along a reference run that ends the logits have the right size and a
      token is picked. */
  lemma {:induction false} EndedRunPicks(q: Request, fed: seq<Token>, em: Progress, n: nat)
    requires q.params.sampling.Greedy? && Resume(q, fed, em, 0).Ended?
    requires var f := Resume(q, fed, em, 0).fed; |fed| <= n <= |f| && fed <= f
    ensures var f := Resume(q, fed, em, 0).fed;
      |Logit(q.env.compute, f[..n])| == q.env.vocab &&
      q.env.argmax(Logit(q.env.compute, f[..n]), q.prompt, em.out + f[|fed|..n]).Some?
    decreases q.params.maxTokens - em.completion, 1
  {
    hide Emit;
    var f := Resume(q, fed, em, 0).fed;
    var tok := q.env.argmax(Logit(q.env.compute, fed), q.prompt, em.out).value;
    if n == |fed| {
      assert f[..n] == fed && em.out + f[|fed|..n] == em.out;
    } else {
      RunGrows(q, fed, em, tok);
      var e := Emit(q, em, tok);
      assert e.finish.None?;
      assert f[|fed|] == (fed + [tok])[|fed|];
      EndedRunPicks(q, fed + [tok], e.em, n);
      assert em.out + [tok] + f[|fed| + 1..n] == em.out + f[|fed|..n];
    }
  }

  lemma HeldPicks(q: Request, fed: seq<Token>, em: Progress, context: seq<Token>)
    requires q.params.sampling.Greedy? && Resume(q, fed, em, 0).Ended?
    ensures fed <= context <= Resume(q, fed, em, 0).fed ==>
      |Logit(q.env.compute, context)| == q.env.vocab &&
      q.env.argmax(Logit(q.env.compute, context), q.prompt, em.out + context[|fed|..]).Some?
  {
    hide Resume;
    var f := Resume(q, fed, em, 0).fed;
    ResumeGrows(q, fed, em);
    if fed <= context <= f {
      EndedRunPicks(q, fed, em, |context|);
      assert f[..|context|] == context && f[|fed|..|context|] == context[|fed|..];
    }
  }

  /** A run only adds to what was fed. */
  lemma {:induction false} RunGrows(q: Request, fed: seq<Token>, em: Progress, tok: Token)
    requires q.params.sampling.Greedy? && Continue(q, fed, em, 0, tok).Ended?
    ensures fed <= Continue(q, fed, em, 0, tok).fed
    ensures var e := Emit(q, em, tok);
      e.Emitted? && (if e.finish.Some? then Continue(q, fed, em, 0, tok).fed == fed
                     else fed + [tok] <= Continue(q, fed, em, 0, tok).fed)
    decreases q.params.maxTokens - em.completion, 0
  {
    hide Emit;
    var e := Emit(q, em, tok);
    if e.finish.None? {
      ResumeGrows(q, fed + [tok], e.em);
    }
  }

  lemma {:induction false} ResumeGrows(q: Request, fed: seq<Token>, em: Progress)
    requires q.params.sampling.Greedy? && Resume(q, fed, em, 0).Ended?
    ensures fed <= Resume(q, fed, em, 0).fed
    decreases q.params.maxTokens - em.completion, 1
  {
    hide Emit;
    RunGrows(q, fed, em, q.env.argmax(Logit(q.env.compute, fed), q.prompt, em.out).value);
  }

  /** The row that fails lies beyond the reference run: the run never holds its
      context. */
  lemma {:induction false} OverreachIsBeyond(q: Request, fed: seq<Token>, em: Progress, tok: Token, round: nat,
                                             drafter: Drafter, adapt: nat -> nat)
    returns (context: seq<Token>)
    requires q.params.sampling.Greedy? && Overreaches(q, fed, em, tok, round, drafter, adapt)
    requires Continue(q, fed, em, 0, tok).Ended?
    ensures fed < context && BadRow(q, context) && !(context <= Continue(q, fed, em, 0, tok).fed)
    decreases q.params.maxTokens - em.completion, 0
  {
    hide Emit, Agreed, Choice, RoundErrs, BatchOf, BadRow;
    var e := Emit(q, em, tok);
    var batch := BatchOf(q, fed, e.em.completion, tok, round, drafter, adapt);
    assert fed + [tok] == fed + batch[..1];
    if RoundErrs(q, fed, batch, e.em.out) {
      context := ErrsBeyond(q, fed, batch, e.em);
    } else {
      context := LaterIsBeyond(q, fed, e.em.out, e.em, batch, 1, Agreed(q, fed, batch, e.em.out, 0), round + 1, drafter,
                               adapt);
    }
  }

  lemma ErrsBeyond(q: Request, fed: seq<Token>, batch: seq<Token>, em: Progress) returns (context: seq<Token>)
    requires q.params.sampling.Greedy? && batch != [] && RoundErrs(q, fed, batch, em.out)
    requires Resume(q, fed + batch[..1], em, 0).Ended?
    ensures fed < context && BadRow(q, context) && !(context <= Resume(q, fed + batch[..1], em, 0).fed)
  {
    hide Emit, Agreed, Resume, Continue;
    var start := fed + batch[..1];
    var i: nat;
    if k: nat :| k < |batch| && |Row(q, fed, batch, k)| != q.env.vocab {
      i := k;
    } else {
      i := Agreed(q, fed, batch, em.out, 0);
    }
    context := fed + batch[..i + 1];
    assert context[|start|..] == batch[1..i + 1] && start <= context;
    HeldPicks(q, start, em, context);
  }

  lemma {:induction false} LaterIsBeyond(q: Request, fed: seq<Token>, out: seq<Token>, em: Progress, batch: seq<Token>,
                                         keep: nat, accepted: nat, round: nat, drafter: Drafter, adapt: nat -> nat)
    returns (context: seq<Token>)
    requires q.params.sampling.Greedy? && 1 <= keep <= accepted + 1 <= |batch|
    requires em.out == out + batch[1..keep]
    requires forall i | 0 <= i < accepted :: Choice(q, fed, batch, out, i) == Some(batch[i + 1])
    requires LaterOverreaches(q, fed, em, batch, keep, accepted, round, drafter, adapt)
    requires Resume(q, fed + batch[..keep], em, 0).Ended?
    ensures fed < context && BadRow(q, context) && !(context <= Resume(q, fed + batch[..keep], em, 0).fed)
    decreases q.params.maxTokens - em.completion, 1
  {
    hide Emit, BadRow;
    if keep <= accepted {
      assert Choice(q, fed, batch, out, keep - 1) == Some(batch[keep]);
      var e := Emit(q, em, batch[keep]);
      assert fed + batch[..keep] + [batch[keep]] == fed + batch[..keep + 1];
      context := LaterIsBeyond(q, fed, out, e.em, batch, keep + 1, accepted, round, drafter, adapt);
    } else {
      var next := q.env.argmax(Logit(q.env.compute, fed + batch[..keep]), q.prompt, em.out).value;
      context := OverreachIsBeyond(q, fed + batch[..keep], em, next, round, drafter, adapt);
      assert fed < context;
    }
  }

  /** Where speculation fails and the plain loop ends, it is on a row whose
      context the plain loop never holds. */
  lemma FailsBeyondTheRun(q: Request, fed: seq<Token>, em: Progress, drafter: Drafter, adapt: nat -> nat)
    returns (context: seq<Token>)
    requires q.params.sampling.Greedy? && Resume(q, fed, em, 0).Ended?
    requires SpecOverreaches(q, fed, em, drafter, adapt)
    ensures fed < context && BadRow(q, context) && !(context <= Resume(q, fed, em, 0).fed)
  {
    hide Emit, Overreaches, BadRow;
    var tok := q.env.argmax(Logit(q.env.compute, fed), q.prompt, em.out).value;
    context := OverreachIsBeyond(q, fed, em, tok, 0, drafter, adapt);
  }

  /** So it cannot happen when the sampler always has something to pick from. */
  lemma NoOverreach(q: Request, fed: seq<Token>, em: Progress, drafter: Drafter, adapt: nat -> nat)
    requires SamplesAlways(q.env)
    ensures !SpecOverreaches(q, fed, em, drafter, adapt)
  {
    hide Overreaches;
    match q.env.argmax(Logit(q.env.compute, fed), q.prompt, em.out) {
      case None =>
      case Some(tok) => AlwaysInReach(q, fed, em, tok, 0, drafter, adapt);
    }
  }

  lemma {:induction false} AlwaysInReach(q: Request, fed: seq<Token>, em: Progress, tok: Token, round: nat,
                                         drafter: Drafter, adapt: nat -> nat)
    requires SamplesAlways(q.env)
    ensures !Overreaches(q, fed, em, tok, round, drafter, adapt)
    decreases q.params.maxTokens - em.completion, 0
  {
    hide Emit, Agreed, BatchOf;
    var e := Emit(q, em, tok);
    if e.Emitted? && e.finish.None? {
      var batch := BatchOf(q, fed, e.em.completion, tok, round, drafter, adapt);
      LaterInReach(q, fed, e.em, batch, 1, Agreed(q, fed, batch, e.em.out, 0), round + 1, drafter, adapt);
    }
  }

  lemma {:induction false} LaterInReach(q: Request, fed: seq<Token>, em: Progress, batch: seq<Token>, keep: nat,
                                        accepted: nat, round: nat, drafter: Drafter, adapt: nat -> nat)
    requires SamplesAlways(q.env) && 1 <= keep <= accepted + 1 <= |batch|
    ensures !LaterOverreaches(q, fed, em, batch, keep, accepted, round, drafter, adapt)
    decreases q.params.maxTokens - em.completion, 1
  {
    hide Emit;
    if keep <= accepted {
      var e := Emit(q, em, batch[keep]);
      if e.Emitted? && e.finish.None? {
        LaterInReach(q, fed, e.em, batch, keep + 1, accepted, round, drafter, adapt);
      }
    } else {
      var p := q.env.argmax(Logit(q.env.compute, fed + batch[..keep]), q.prompt, em.out);
      if p.Some? {
        AlwaysInReach(q, fed + batch[..keep], em, p.value, round, drafter, adapt);
      }
    }
  }

  // ----- the loop -------------------------------------------------------------------

  /** Where the target agrees with draft `i`, the plain loop samples it. */
  lemma ResumeAgrees(q: Request, fed: seq<Token>, batch: seq<Token>, em: Progress, i: nat, t: Token)
    requires q.params.sampling.Greedy? && i < |batch|
    requires |Row(q, fed, batch, i)| == q.env.vocab && q.env.argmax(Row(q, fed, batch, i), q.prompt, em.out) == Some(t)
    ensures Resume(q, fed + batch[..i + 1], em, 0) == Continue(q, fed + batch[..i + 1], em, 0, t)
  {
  }

  /** Emit the accepted drafts; `keep` counts the batch tokens to keep. */
  method EmitAccepted(q: Request, em: Emitter, ghost fed: seq<Token>, batch: seq<Token>, ghost all: seq<Logits>,
                      accepted: nat, ghost round: nat, ghost drafter: Drafter, ghost adapt: nat -> nat)
    returns (failed: bool, keep: nat, finish: Option<Finish>)
    requires em.Valid() && em.q == q && q.params.sampling.Greedy? && Verified(q, fed, batch, all)
    requires accepted < |batch|
    requires forall i | 0 <= i < accepted :: Choice(q, fed, batch, em.out, i) == Some(batch[i + 1])
    modifies em.Repr
    ensures em.Valid() && 1 <= keep <= accepted + 1
    ensures var goal := Resume(q, fed + batch[..1], old(em.Now()), 0);
      if failed then goal == RunFails
      else if finish.Some? then goal == Ended(fed + batch[..keep], em.Now(), finish.value)
      else goal == Resume(q, fed + batch[..keep], em.Now(), 0)
    ensures !failed && finish.None? ==> keep == accepted + 1 && em.out == old(em.out) + batch[1..keep]
    ensures !failed && finish.None? ==> em.completion == old(em.completion) + accepted
    ensures LaterOverreaches(q, fed, old(em.Now()), batch, 1, accepted, round, drafter, adapt) <==>
      !failed && finish.None? && LaterOverreaches(q, fed, em.Now(), batch, keep, accepted, round, drafter, adapt)
  {
    hide Emit, Resume, Continue, Overreaches;
    keep := 1;
    failed, finish := false, None;
    ghost var goal := Resume(q, fed + batch[..1], em.Now(), 0);
    ghost var over := LaterOverreaches(q, fed, em.Now(), batch, 1, accepted, round, drafter, adapt);
    ghost var out := em.out;
    while keep <= accepted
      invariant em.Valid() && 1 <= keep <= accepted + 1
      invariant em.out == out + batch[1..keep] && em.completion == old(em.completion) + keep - 1
      invariant goal == Resume(q, fed + batch[..keep], em.Now(), 0)
      invariant over == LaterOverreaches(q, fed, em.Now(), batch, keep, accepted, round, drafter, adapt)
    {
      assert Choice(q, fed, batch, out, keep - 1) == Some(batch[keep]) && all[keep - 1] == Row(q, fed, batch, keep - 1);
      ResumeAgrees(q, fed, batch, em.Now(), keep - 1, batch[keep]);
      ContinueStep(q, fed, batch, em.Now(), keep);
      var e := em.Token(batch[keep]);
      if e.None? {
        failed := true;
        return;
      }
      if e.value.Some? {
        finish := e.value;
        return;
      }
      assert out + batch[1..keep] + [batch[keep]] == out + batch[1..keep + 1];
      keep := keep + 1;
    }
  }

  lemma ContinueStep(q: Request, fed: seq<Token>, batch: seq<Token>, em: Progress, keep: nat)
    requires keep < |batch|
    ensures Continue(q, fed + batch[..keep], em, 0, batch[keep]) ==
      match Emit(q, em, batch[keep])
      case EmitFails => RunFails
      case Emitted(e, Some(f)) => Ended(fed + batch[..keep], e, f)
      case Emitted(e, None) => Resume(q, fed + batch[..keep + 1], e, 0)
  {
    hide Emit, Resume;
    assert fed + batch[..keep] + [batch[keep]] == fed + batch[..keep + 1];
  }

  /** The batch of one round fits the model and the remaining token budget. */
  predicate RoundFits(q: Request, fed: seq<Token>, completion: nat, drafts: seq<Draft>) {
    |fed| + 1 + |drafts| <= q.env.maxSeq && completion + |drafts| < q.params.maxTokens
  }

  /** How a round that is not stopped by a forward compares with the reference
      run `goal`, and with `over`, that the rest of speculation fails on its rows. */
  ghost predicate RoundMeans(q: Request, goal: Run, over: bool, r: Result<Token, Decoded>, fed: seq<Token>, em: Progress,
                             round: nat, drafter: Drafter, adapt: nat -> nat) {
    match r
    case Ok(next) =>
      goal == Continue(q, fed, em, 0, next) && (over <==> Overreaches(q, fed, em, next, round, drafter, adapt))
    case Err(Finished(f)) => goal == Ended(fed, em, f) && !over
    case Err(Erred) => goal == RunFails || over
    case Err(ForwardFailed) => true
  }

  /** Keep the first tokens of a forward, which was provisional if it had drafts. */
  method CommitKept(state: ModelState, drafted: bool, fed: seq<Token>, batch: seq<Token>, keep: nat)
    requires 1 <= keep <= |batch|
    requires if drafted then state.HoldsProvisionally(fed, batch) else state.Holds(fed + batch) && |batch| == 1
    modifies state
    ensures state.Holds(fed + batch[..keep])
  {
    hide ModelState.Holds, ModelState.HoldsProvisionally;
    assert (fed + batch)[..|fed| + keep] == fed + batch[..keep];
    if drafted {
      var _ := state.Commit(|fed| + keep, fed, batch);
    } else {
      assert batch[..keep] == batch;
    }
  }

  /** One round: verify the drafts after `tok`, commit what the target agrees
      with. Returns the next sampled token, or how decoding ended. */
  method SpecRound(q: Request, em: Emitter, state: ModelState, fed0: seq<Token>, tok: Token, drafts: seq<Draft>,
                   ghost round: nat, ghost drafter: Drafter, ghost adapt: nat -> nat)
    returns (r: Result<Token, Decoded>, fed: seq<Token>)
    requires em.Valid() && em.q == q && q.params.sampling.Greedy? && state !in em.Repr && state.Holds(fed0)
    requires RoundFits(q, fed0, em.completion, drafts) && q.prompt <= fed0 && InStep(q, fed0 + [tok], em.Now())
    modifies em.Repr, state
    ensures em.Valid()
    ensures var batch := [tok] + Tokens(drafts);
      RoundMeans(q, Resume(q, fed0 + [tok], old(em.Now()), 0),
                 RoundOverreaches(q, fed0, old(em.Now()), batch, round, drafter, adapt),
                 r, fed, em.Now(), round, drafter, adapt)
    ensures r == Err(ForwardFailed) ==> ForwardUnsure(q)
    ensures r.Ok? || r.error.Finished? ==> state.Holds(fed)
    ensures r.Ok? ==> fed0 <= fed && |fed| - |fed0| == em.completion - old(em.completion) + 1
    ensures r.Ok? ==> em.completion >= old(em.completion)
  {
    hide Emit, Resume, Continue, Overreaches, RoundErrs, LaterOverreaches, ForwardUnsure, Agreed, ModelState.Holds,
         ModelState.HoldsProvisionally;
    fed := fed0;
    var batch := [tok] + Tokens(drafts);
    assert batch[..1] == [tok] && batch[1..] == Tokens(drafts);
    var all := state.Forward(q.env.compute, q.env.sure, batch, |fed|, drafts != [], q.env.maxSeq, fed);
    if all.None? {
      UnsureOf(q, fed, batch);
      return Err(ForwardFailed), fed;
    }
    if exists i | 0 <= i < |batch| :: |all.value[i]| != q.env.vocab {
      SizeErrs(q, fed, batch, all.value, em.out);
      RowErrMeans(q, fed, batch, em.Now(), fed, em.Now(), round, drafter, adapt);
      return Err(Erred), fed;
    }
    assert Verified(q, fed, batch, all.value);
    var keep: nat;
    r, keep := AcceptAndEmit(q, em, fed, batch, all.value, round, drafter, adapt);
    if r.Ok? || r.error.Finished? {
      CommitKept(state, drafts != [], fed, batch, keep);
      fed := fed + batch[..keep];
    }
  }

  ghost predicate RoundOverreaches(q: Request, fed: seq<Token>, em: Progress, batch: seq<Token>, round: nat,
                                   drafter: Drafter, adapt: nat -> nat)
    requires batch != []
  {
    RoundErrs(q, fed, batch, em.out) ||
    LaterOverreaches(q, fed, em, batch, 1, Agreed(q, fed, batch, em.out, 0), round, drafter, adapt)
  }

  lemma UnsureOf(q: Request, fed: seq<Token>, batch: seq<Token>)
    requires q.prompt <= fed && |fed + batch| <= |q.prompt| + q.params.maxTokens && !q.env.sure(fed, batch)
    ensures ForwardUnsure(q)
  {
    assert Concerns(q, fed, batch);
  }

  lemma SizeErrs(q: Request, fed: seq<Token>, batch: seq<Token>, all: seq<Logits>, out: seq<Token>)
    requires batch != [] && |all| == |batch|
    requires forall i | 0 <= i < |batch| :: all[i] == Row(q, fed, batch, i)
    requires exists i | 0 <= i < |batch| :: |all[i]| != q.env.vocab
    ensures RoundErrs(q, fed, batch, out)
  {
  }

  lemma RowErrMeans(q: Request, fed: seq<Token>, batch: seq<Token>, em: Progress, fed': seq<Token>, em': Progress,
                    round: nat, drafter: Drafter, adapt: nat -> nat)
    requires batch != [] && RoundErrs(q, fed, batch, em.out)
    ensures RoundMeans(q, Resume(q, fed + batch[..1], em, 0), RoundOverreaches(q, fed, em, batch, round, drafter, adapt),
                       Err(Erred), fed', em', round, drafter, adapt)
  {
  }

  lemma RowsRight(q: Request, fed: seq<Token>, batch: seq<Token>, all: seq<Logits>, out: seq<Token>)
    requires batch != [] && Verified(q, fed, batch, all)
    ensures RoundErrs(q, fed, batch, out) <==> Choice(q, fed, batch, out, Agreed(q, fed, batch, out, 0)).None?
  {
    hide Agreed, Choice;
  }

  /** Accept drafts, emit them, and sample the token after the last one kept. */
  method AcceptAndEmit(q: Request, em: Emitter, ghost fed: seq<Token>, batch: seq<Token>, all: seq<Logits>,
                       ghost round: nat, ghost drafter: Drafter, ghost adapt: nat -> nat)
    returns (r: Result<Token, Decoded>, keep: nat)
    requires em.Valid() && em.q == q && q.params.sampling.Greedy? && batch != [] && Verified(q, fed, batch, all)
    modifies em.Repr
    ensures em.Valid() && 1 <= keep <= |batch|
    ensures RoundMeans(q, Resume(q, fed + batch[..1], old(em.Now()), 0),
                       RoundOverreaches(q, fed, old(em.Now()), batch, round, drafter, adapt),
                       r, fed + batch[..keep], em.Now(), round, drafter, adapt)
    ensures r.Ok? ==> em.completion == old(em.completion) + keep - 1
    ensures r.Err? ==> !r.error.ForwardFailed?
  {
    hide Emit, Resume, Continue, Overreaches, Agreed, RoundErrs, Choice;
    keep := 1;
    var accepted, next := Accept(q, fed, batch, all, em.out);
    RowsRight(q, fed, batch, all, em.out);
    if next.None? {
      return Err(Erred), keep;
    }
    ghost var out := em.out;
    var failed, finish;
    failed, keep, finish := EmitAccepted(q, em, fed, batch, all, accepted, round, drafter, adapt);
    if failed {
      return Err(Erred), keep;
    }
    if finish.Some? {
      return Err(Finished(finish.value)), keep;
    }
    ChoiceAt(q, fed, batch, out, accepted);
    assert all[accepted] == Row(q, fed, batch, accepted);
    ResumeAgrees(q, fed, batch, em.Now(), keep - 1, next.value);
    return Ok(next.value), keep;
  }

  lemma ChoiceAt(q: Request, fed: seq<Token>, batch: seq<Token>, out: seq<Token>, n: nat)
    requires n < |batch|
    ensures Choice(q, fed, batch, out, n) ==
      q.env.argmax(Logit(q.env.compute, fed + batch[..n + 1]), q.prompt, out + batch[1..n + 1])
  {
  }

  /** Greedy speculative decoding: draft, verify in one forward, keep what the
      target agrees with. Whatever is drafted and however many tokens are asked
      for, the outcome is that of the plain loop, except that it errs where it
      verifies a row it cannot use. */
  method SpecDecode(q: Request, em: Emitter, state: ModelState, fed0: seq<Token>, logits0: Logits,
                    drafter: Drafter, adapt: nat -> nat)
    returns (r: Decoded, fed: seq<Token>)
    requires em.Valid() && em.q == q && state !in em.Repr && state.Holds(fed0)
    requires Fits(q) && InStep(q, fed0, em.Now()) && q.params.sampling.Greedy? && q.prompt <= fed0
    requires logits0 == Logit(q.env.compute, fed0) && |logits0| == q.env.vocab
    modifies em.Repr, state
    ensures em.Valid()
    ensures r.Finished? ==> Resume(q, fed0, old(em.Now()), FirstRng(q)) == Ended(fed, em.Now(), r.finish)
    ensures r.Finished? ==> state.Holds(fed)
    ensures r.ForwardFailed? || (r.Erred? <==>
      Resume(q, fed0, old(em.Now()), FirstRng(q)) == RunFails || SpecOverreaches(q, fed0, old(em.Now()), drafter, adapt))
    ensures r.ForwardFailed? ==> ForwardUnsure(q)
    ensures ForwardsSure(q.env) && SamplesAlways(q.env) ==>
      r.Finished? || (r.Erred? && Resume(q, fed0, old(em.Now()), FirstRng(q)) == RunFails)
  {
    hide SamplesAlways, ForwardsSure, ForwardUnsure, Emit, RoundErrs, LaterOverreaches, Agreed;
    if SamplesAlways(q.env) {
      NoOverreach(q, fed0, em.Now(), drafter, adapt);
    }
    if ForwardsSure(q.env) {
      NothingUnsure(q);
    }
    fed := fed0;
    ghost var goal := Resume(q, fed, em.Now(), 0);
    ghost var over := SpecOverreaches(q, fed, em.Now(), drafter, adapt);
    var picked := q.env.argmax(logits0, q.prompt, em.out);
    if picked.None? {
      return Erred, fed;
    }
    var tok := picked.value;
    var round: nat := 0;
    while true
      invariant em.Valid() && state.Holds(fed) && InStep(q, fed, em.Now()) && q.prompt <= fed
      invariant goal == Continue(q, fed, em.Now(), 0, tok)
      invariant over <==> Overreaches(q, fed, em.Now(), tok, round, drafter, adapt)
      decreases q.params.maxTokens - em.completion
    {
      var e := em.Token(tok);
      if e.None? {
        return Erred, fed;
      }
      if e.value.Some? {
        return Finished(e.value.value), fed;
      }
      var drafts := DraftsOf(q, fed, em.completion, tok, round, drafter, adapt);
      round := round + 1;
      var step, fed' := SpecRound(q, em, state, fed, tok, drafts, round, drafter, adapt);
      fed := fed';
      if step.Err? {
        return step.error, fed;
      }
      tok := step.value;
    }
  }

  lemma NothingUnsure(q: Request)
    requires ForwardsSure(q.env)
    ensures !ForwardUnsure(q)
  {
  }

  // ----- it does happen ---------------------------------------------------------------

  const CONTINUES: Token := 0
  const ENDS: Token := 1

  /** A model whose sampler picks a token, then the end of the text, and nothing
      from there on. */
  function Stubborn(): Env {
    Env(0, (held: seq<Token>, folded: seq<Token>) => [0.0, 0.0], (held: seq<Token>, new_: seq<Token>) => true, 2, 8,
      None, [ENDS],
        (p: seq<Token>, o: seq<Token>) => Detok.Nothing, (p: seq<Token>, o: seq<Token>) => Detok.Nothing,
        (p: seq<Token>) => Some(false),
        (l: Logits, p: seq<Token>, o: seq<Token>) =>
          if |o| == 0 then Some(CONTINUES) else if |o| == 1 then Some(ENDS) else None,
        (seed: nat) => 0,
        (g: nat, l: Logits, p: seq<Token>, o: seq<Token>) => (None, 0))
  }

  function Short(): Request {
    Request(Stubborn(), [CONTINUES], Params(4, [], [], false, 1, false, Greedy), false, _ => false)
  }

  /** Proposes the end of the text. */
  function Ender(): Drafter {
    (round: nat, context: seq<Token>, max: nat) => [Draft(ENDS, None)]
  }

  /** The draft that ends the text is accepted, but the row after it gives no
      token: the plain loop, which stops there, has its outcome. */
  lemma SpeculationMayErr()
    ensures var q := Short();
      Resume(q, q.prompt, FirstProgress(q), 0).Ended? &&
      SpecOverreaches(q, q.prompt, FirstProgress(q), Ender(), round => 1)
  {
    var q := Short();
    var em := FirstProgress(q);
    var one := Emit(q, em, CONTINUES);
    assert one == Emitted(Progress([CONTINUES], "", None, em.sink, 1), None);
    assert Emit(q, one.em, ENDS).finish == Some(Finish.Stop);
    assert Resume(q, q.prompt + [CONTINUES], one.em, 0).Ended?;
    var batch := BatchOf(q, q.prompt, 1, CONTINUES, 0, Ender(), round => 1);
    assert DraftsOf(q, q.prompt, 1, CONTINUES, 0, Ender(), round => 1) == [Draft(ENDS, None)];
    assert batch == [CONTINUES, ENDS];
    var out := one.em.out;
    assert out + batch[1..1] == out && out + batch[1..2] == [CONTINUES, ENDS];
    assert Choice(q, q.prompt, batch, out, 0) == Some(ENDS);
    assert Agreed(q, q.prompt, batch, out, 0) == 1;
    assert Choice(q, q.prompt, batch, out, 1) == None;
  }
}
