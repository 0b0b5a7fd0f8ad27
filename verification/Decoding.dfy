/** What a request produces, as a function of its prompt: the decode loop with
    one token per forward, its output bookkeeping and the text it shows. Every
    engine is compared with this. */
module Decoding {
  import opened Wrappers
  import opened States
  import opened StopStrings
  import opened Reasoning

  datatype Finish = Stop | Length | StopString | Aborted

  /** Text completed by a token: nothing yet, some text, or a decoder error. */
  datatype Detok = Fails | Nothing | Text(s: string)

  /** Greedy sampling draws no randomness; otherwise a seeded stream is used. */
  datatype Sampling = Greedy | Seeded(seed: nat)

  datatype Params = Params(maxTokens: nat, stop: seq<string>, stopTokenIds: seq<Token>, ignoreEos: bool,
                           prefillChunk: nat, separate: bool, sampling: Sampling)

  /** The model, the tokenizer and the sampler, each an arbitrary function.
      `push(prompt, out)` is the text completed by the last token of `out`. */
  datatype Env = Env(key: nat, compute: Compute, sure: Sure, vocab: nat, maxSeq: nat, bos: Option<Token>, eos: seq<Token>,
                     push: (seq<Token>, seq<Token>) -> Detok,
                     flush: (seq<Token>, seq<Token>) -> Detok,
                     opensReasoning: seq<Token> -> Option<bool>,
                     argmax: (Logits, seq<Token>, seq<Token>) -> Option<Token>,
                     start: nat -> nat,
                     draw: (nat, Logits, seq<Token>, seq<Token>) -> (Option<Token>, nat))

  /** A request. `breaks(delivered)`: the callback asks to stop when it gets
      the last of the pieces `delivered` so far. */
  datatype Request = Request(env: Env, prompt: seq<Token>, params: Params, inReasoning: bool,
                             breaks: seq<Piece> -> bool)

  /** So a session streams: into a buffer. */
  ghost predicate NeverBreaks(q: Request) {
    forall d: seq<Piece> :: !q.breaks(d)
  }

  function Stops(q: Request): (r: seq<string>)
    ensures forall i | 0 <= i < |r| :: r[i] != ""
  {
    NonEmpty(q.params.stop)
  }

  datatype Picked = Picked(tok: Option<Token>, rng: nat)

  function Pick(q: Request, rng: nat, logits: Logits, out: seq<Token>): Picked {
    match q.params.sampling
    case Greedy => Picked(q.env.argmax(logits, q.prompt, out), rng)
    case Seeded(_) => var r := q.env.draw(rng, logits, q.prompt, out); Picked(r.0, r.1)
  }

  function FirstRng(q: Request): nat {
    match q.params.sampling
    case Greedy => 0
    case Seeded(seed) => q.env.start(seed)
  }

  // ----- output bookkeeping --------------------------------------------------

  /** Accumulated text, and the pieces the callback has received. */
  datatype Sink = Sink(splitter: Option<Split>, text: string, reasoning: string, delivered: seq<Piece>)

  datatype Flow = Flow(sink: Sink, broke: bool)

  /** Account for the pieces; after a break the rest is not delivered. */
  function Dispatch(q: Request, f: Flow, pieces: seq<Piece>): Flow
    decreases |pieces|
  {
    if pieces == [] then f
    else
      var p := pieces[0];
      var s := if p.reasoning then f.sink.(reasoning := f.sink.reasoning + p.text)
               else f.sink.(text := f.sink.text + p.text);
      var s' := if f.broke then s else s.(delivered := s.delivered + [p]);
      Dispatch(q, Flow(s', f.broke || q.breaks(s'.delivered)), pieces[1..])
  }

  ghost function Show(q: Request, sink: Sink, s: string): Flow {
    if s == "" then Flow(sink, false)
    else
      match sink.splitter
      case None => Dispatch(q, Flow(sink, false), [Piece(false, s)])
      case Some(sp) =>
        ThinkIsProper();
        var d := Pushed(THINK, sp, s);
        Dispatch(q, Flow(sink.(splitter := Some(d.st)), false), d.out)
  }

  ghost function CloseSink(q: Request, sink: Sink): Sink {
    match sink.splitter
    case None => sink
    case Some(sp) =>
      Dispatch(q, Flow(sink.(splitter := Some(sp.(pending := ""))), false), Flushed(sp)).sink
  }

  /** Output so far: completion tokens, stop matcher, sink, sampled tokens. */
  datatype Progress = Progress(out: seq<Token>, pending: string, matched: Option<nat>, sink: Sink, completion: nat)

  function FirstProgress(q: Request): Progress {
    var splitter := if q.params.separate then Some(Reasoning.Start(q.inReasoning)) else None;
    Progress([], "", None, Sink(splitter, "", "", []), 0)
  }

  datatype Emitted = EmitFails | Emitted(em: Progress, finish: Option<Finish>)

  predicate EndsGeneration(q: Request, tok: Token) {
    tok in q.params.stopTokenIds || (!q.params.ignoreEos && tok in q.env.eos)
  }

  function LengthCheck(q: Request, completion: nat): Option<Finish> {
    if completion >= q.params.maxTokens then Some(Length) else None
  }

  /** Account for one sampled token. */
  ghost function Emit(q: Request, em: Progress, tok: Token): (r: Emitted)
    ensures r.Emitted? ==> r.em.completion == em.completion + 1
    ensures r.Emitted? && r.finish.None? ==> r.em.completion < q.params.maxTokens && r.em.out == em.out + [tok]
  {
    var e := em.(completion := em.completion + 1);
    if EndsGeneration(q, tok) then Emitted(e, Some(Finish.Stop))
    else
      var e := e.(out := em.out + [tok]);
      match q.env.push(q.prompt, e.out)
      case Fails => EmitFails
      case Nothing => Emitted(e, LengthCheck(q, e.completion))
      case Text(delta) =>
        var r := PushResult(Stops(q), em.pending, delta);
        var shown := Show(q, em.sink, r.out);
        var e := e.(pending := r.pending, matched := if r.hit.Some? then r.hit else em.matched, sink := shown.sink);
        Emitted(e, if shown.broke then Some(Aborted)
                   else if r.hit.Some? then Some(StopString)
                   else LengthCheck(q, e.completion))
  }

  // ----- the plain decode loop --------------------------------------------------

  datatype Run = RunFails | Ended(fed: seq<Token>, em: Progress, finish: Finish)

  /** From a sampled token on, feeding one token per forward. `fed` is what the
      state holds; the token that ends generation is never fed. */
  ghost function Continue(q: Request, fed: seq<Token>, em: Progress, rng: nat, tok: Token): Run
    decreases q.params.maxTokens - em.completion, 0
  {
    match Emit(q, em, tok)
    case EmitFails => RunFails
    case Emitted(e, Some(f)) => Ended(fed, e, f)
    case Emitted(e, None) => Resume(q, fed + [tok], e, rng)
  }

  /** Sample from the logits of the last fed token and go on. */
  ghost function Resume(q: Request, fed: seq<Token>, em: Progress, rng: nat): Run
    decreases q.params.maxTokens - em.completion, 1
  {
    var logits := Logit(q.env.compute, fed);
    if |logits| != q.env.vocab then RunFails
    else
      var p := Pick(q, rng, logits, em.out);
      if p.tok.None? then RunFails else Continue(q, fed, em, p.rng, p.tok.value)
  }

  // ----- the end of a request -----------------------------------------------------

  datatype Output = Output(tokens: seq<Token>, text: string, reasoning: string, delivered: seq<Piece>,
                           finish: Finish, stop: Option<nat>, completion: nat)

  datatype Answer = RequestFails | Completed(output: Output, fed: seq<Token>)

  function OutputOf(em: Progress, sink: Sink, finish: Finish, matched: Option<nat>): Output {
    Output(em.out, sink.text, sink.reasoning, sink.delivered, finish, matched, em.completion)
  }

  /** Release the text held back by the detokenizer, the stop matcher and the
      splitter. */
  ghost function Finalize(q: Request, r: Run): Answer {
    if r.RunFails? then RequestFails
    else
      var em := r.em;
      if r.finish == Aborted then Completed(OutputOf(em, em.sink, Aborted, em.matched), r.fed)
      else if r.finish == StopString then Completed(OutputOf(em, CloseSink(q, em.sink), StopString, em.matched), r.fed)
      else
        match q.env.flush(q.prompt, em.out)
        case Fails => RequestFails
        case Nothing =>
          Completed(OutputOf(em, CloseSink(q, Show(q, em.sink, em.pending).sink), r.finish, em.matched), r.fed)
        case Text(rest) =>
          var m := PushResult(Stops(q), em.pending, rest);
          var sink := Show(q, em.sink, m.out).sink;
          if m.hit.Some? then Completed(OutputOf(em, CloseSink(q, sink), StopString, m.hit), r.fed)
          else Completed(OutputOf(em, CloseSink(q, Show(q, sink, m.pending).sink), r.finish, em.matched), r.fed)
  }

  /** The reference: the request alone, from a fresh state, without a cache. */
  ghost function Solo(q: Request): Answer {
    Finalize(q, Resume(q, q.prompt, FirstProgress(q), FirstRng(q)))
  }
}
