/** What the answer to a request is made of, without the loop that computes it:
    which tokens it has, why it ended, and what its callback got. */
module SoloRuns {
  import opened Wrappers
  import opened States
  import opened StopStrings
  import opened Reasoning
  import opened Decoding
  import opened Replies

  // ----- the tokens ---------------------------------------------------------------

  /** A token that ends generation and is not part of the output. */
  ghost predicate Ending(q: Request, tok: Token) {
    (tok in q.env.eos && !q.params.ignoreEos) || tok in q.params.stopTokenIds
  }

  /** After the output `out` the sampler picks `tok`, its stream going from `g`
      to `h`. */
  ghost predicate Samples(q: Request, out: seq<Token>, g: nat, tok: Token, h: nat) {
    var logits := Logit(q.env.compute, q.prompt + out);
    |logits| == q.env.vocab &&
    match q.params.sampling
    case Greedy => q.env.argmax(logits, q.prompt, out) == Some(tok) && h == g
    case Seeded(_) => q.env.draw(g, logits, q.prompt, out) == (Some(tok), h)
  }

  /** Every token was picked after those before it, none of them ends generation,
      and the stream started from the seed and moved once per token. */
  ghost predicate Drawn(q: Request, out: seq<Token>, stream: seq<nat>) {
    |stream| == |out| + 1 && (q.params.sampling.Seeded? ==> stream[0] == q.env.start(q.params.sampling.seed)) &&
    forall i | 0 <= i < |out| :: Samples(q, out[..i], stream[i], out[i], stream[i + 1]) && !Ending(q, out[i])
  }

  /** After `out` the run goes on: there is budget left, the text was decoded, and
      no stop string is complete. */
  ghost predicate GoesOn(q: Request, out: seq<Token>) {
    |out| < q.params.maxTokens && !q.env.push(q.prompt, out).Fails? &&
    StopStrings.Run(Stops(q), Deltas(q, out)).matched.None?
  }

  ghost predicate WentOn(q: Request, out: seq<Token>) {
    forall i | 0 < i <= |out| :: GoesOn(q, out[..i])
  }

  /** The next pick ends generation. */
  ghost predicate MeetsEnd(q: Request, out: seq<Token>, g: nat) {
    exists tok, h :: Samples(q, out, g, tok, h) && Ending(q, tok)
  }

  // ----- the callback -----------------------------------------------------------------

  /** The callback went on after every piece. */
  ghost predicate Unbroken(q: Request, d: seq<Piece>) {
    forall n | 0 < n <= |d| :: !q.breaks(d[..n])
  }

  /** The callback asked to stop at the last piece, and at none before. */
  ghost predicate BrokeAtLast(q: Request, d: seq<Piece>) {
    d != [] && q.breaks(d) && Unbroken(q, d[..|d| - 1])
  }

  lemma UnbrokenMore(q: Request, d: seq<Piece>, p: Piece)
    requires Unbroken(q, d)
    ensures if q.breaks(d + [p]) then BrokeAtLast(q, d + [p]) else Unbroken(q, d + [p])
  {
    var e := d + [p];
    assert e[..|d|] == d;
    forall n | 0 < n <= |e| && !q.breaks(e) ensures !q.breaks(e[..n]) {
      assert n <= |d| ==> e[..n] == d[..n];
      assert n == |e| ==> e[..n] == e;
    }
  }

  lemma {:induction false} BrokenGetsNothing(q: Request, f: Flow, pieces: seq<Piece>)
    requires f.broke
    ensures Dispatch(q, f, pieces).broke && Dispatch(q, f, pieces).sink.delivered == f.sink.delivered
    decreases |pieces|
  {
    if pieces != [] {
      var p := pieces[0];
      var s := if p.reasoning then f.sink.(reasoning := f.sink.reasoning + p.text)
               else f.sink.(text := f.sink.text + p.text);
      BrokenGetsNothing(q, Flow(s, true), pieces[1..]);
    }
  }

  lemma {:induction false} DispatchStops(q: Request, f: Flow, pieces: seq<Piece>)
    requires !f.broke && Unbroken(q, f.sink.delivered)
    ensures var r := Dispatch(q, f, pieces);
      if r.broke then BrokeAtLast(q, r.sink.delivered) else Unbroken(q, r.sink.delivered)
    decreases |pieces|
  {
    hide Unbroken, BrokeAtLast;
    if pieces != [] {
      var p := pieces[0];
      var s := if p.reasoning then f.sink.(reasoning := f.sink.reasoning + p.text)
               else f.sink.(text := f.sink.text + p.text);
      var s' := s.(delivered := s.delivered + [p]);
      UnbrokenMore(q, f.sink.delivered, p);
      if q.breaks(s'.delivered) {
        BrokenGetsNothing(q, Flow(s', true), pieces[1..]);
      } else {
        DispatchStops(q, Flow(s', false), pieces[1..]);
      }
    }
  }

  lemma {:induction false} DispatchGrows(q: Request, f: Flow, pieces: seq<Piece>)
    ensures f.sink.delivered <= Dispatch(q, f, pieces).sink.delivered
    decreases |pieces|
  {
    if pieces != [] {
      var p := pieces[0];
      var s := if p.reasoning then f.sink.(reasoning := f.sink.reasoning + p.text)
               else f.sink.(text := f.sink.text + p.text);
      var s' := if f.broke then s else s.(delivered := s.delivered + [p]);
      DispatchGrows(q, Flow(s', f.broke || q.breaks(s'.delivered)), pieces[1..]);
    }
  }

  lemma ShowStops(q: Request, sink: Sink, s: string)
    requires Unbroken(q, sink.delivered)
    ensures var r := Decoding.Show(q, sink, s);
      (if r.broke then BrokeAtLast(q, r.sink.delivered) else Unbroken(q, r.sink.delivered)) &&
      sink.delivered <= r.sink.delivered
  {
    hide Unbroken, BrokeAtLast, Dispatch, Pushed;
    if s != "" {
      match sink.splitter {
        case None =>
          DispatchStops(q, Flow(sink, false), [Piece(false, s)]);
          DispatchGrows(q, Flow(sink, false), [Piece(false, s)]);
        case Some(sp) =>
          ThinkIsProper();
          var d := Pushed(THINK, sp, s);
          DispatchStops(q, Flow(sink.(splitter := Some(d.st)), false), d.out);
          DispatchGrows(q, Flow(sink.(splitter := Some(d.st)), false), d.out);
      }
    }
  }

  // ----- a run --------------------------------------------------------------------------

  /** So far the run went on. */
  ghost predicate Going(q: Request, fed: seq<Token>, em: Progress, rng: nat, stream: seq<nat>, chunks: seq<string>) {
    fed == q.prompt + em.out && em.completion == |em.out| && q.params.maxTokens > 0 &&
    Drawn(q, em.out, stream) && stream[|em.out|] == rng && WentOn(q, em.out) &&
    Tracks(q, em, chunks) && em.matched.None? && Unbroken(q, em.sink.delivered)
  }

  /** How a run ended. */
  ghost predicate EndedSo(q: Request, r: Run, stream: seq<nat>) {
    r.Ended? && Drawn(q, r.em.out, stream) &&
    (if r.finish == Aborted then BrokeAtLast(q, r.em.sink.delivered) else Unbroken(q, r.em.sink.delivered)) &&
    if r.finish == Finish.Stop then
      r.fed == q.prompt + r.em.out && r.em.completion == |r.em.out| + 1 <= q.params.maxTokens &&
      WentOn(q, r.em.out) && MeetsEnd(q, r.em.out, stream[|r.em.out|])
    else
      var n := |r.em.out| - 1;
      n >= 0 && r.fed == q.prompt + r.em.out[..n] && r.em.completion == n + 1 <= q.params.maxTokens &&
      WentOn(q, r.em.out[..n]) && (r.finish == Length ==> n + 1 == q.params.maxTokens)
  }

  lemma DrawnMore(q: Request, out: seq<Token>, stream: seq<nat>, tok: Token, h: nat)
    requires Drawn(q, out, stream) && Samples(q, out, stream[|out|], tok, h) && !Ending(q, tok)
    ensures Drawn(q, out + [tok], stream + [h])
  {
    hide Samples, Ending;
    var more, longer := out + [tok], stream + [h];
    forall i | 0 <= i < |more| ensures Samples(q, more[..i], longer[i], more[i], longer[i + 1]) && !Ending(q, more[i]) {
      assert more[..i] == out[..i] && (i == |out| ==> out[..i] == out);
    }
  }

  lemma WentOnMore(q: Request, out: seq<Token>, tok: Token)
    requires WentOn(q, out) && GoesOn(q, out + [tok])
    ensures WentOn(q, out + [tok])
  {
    hide GoesOn;
    var more := out + [tok];
    forall i | 0 < i <= |more| ensures GoesOn(q, more[..i]) {
      assert i <= |out| ==> more[..i] == out[..i];
      assert i == |more| ==> more[..i] == more;
    }
  }

  lemma SomeBudget(q: Request, out: seq<Token>)
    requires WentOn(q, out) && q.params.maxTokens > 0
    ensures |out| < q.params.maxTokens
  {
    assert |out| > 0 ==> GoesOn(q, out[..|out|]) && out[..|out|] == out;
  }

  /** One sampled token: the run goes on or ends. */
  lemma TokenMeans(q: Request, fed: seq<Token>, em: Progress, rng: nat, stream: seq<nat>, chunks: seq<string>, tok: Token,
                   h: nat)
    returns (stream': seq<nat>, more: seq<string>)
    requires Going(q, fed, em, rng, stream, chunks) && Samples(q, em.out, rng, tok, h) && Emit(q, em, tok).Emitted?
    ensures var e := Emit(q, em, tok);
      if e.finish.None? then Going(q, fed + [tok], e.em, h, stream', more)
      else EndedSo(q, Ended(fed, e.em, e.finish.value), stream')
  {
    hide Samples, Tracks, Decoding.Show, PushResult, Unbroken, BrokeAtLast, Deltas, StopStrings.Run;
    SomeBudget(q, em.out);
    more := EmitTracks(q, em, tok, chunks);
    var e := Emit(q, em, tok);
    if Ending(q, tok) {
      stream' := stream;
      return;
    }
    stream' := stream + [h];
    var out := em.out + [tok];
    assert out[..|out| - 1] == em.out && q.prompt + em.out + [tok] == q.prompt + out;
    DrawnMore(q, em.out, stream, tok, h);
    var d := q.env.push(q.prompt, out);
    if d.Text? {
      ShowStops(q, em.sink, PushResult(Stops(q), em.pending, d.s).out);
    }
    if e.finish.None? {
      TracksMatched(q, e.em, more);
      WentOnMore(q, em.out, tok);
    }
  }

  lemma TracksMatched(q: Request, em: Progress, chunks: seq<string>)
    requires Tracks(q, em, chunks)
    ensures StopStrings.Run(Stops(q), Deltas(q, em.out)).matched == em.matched
  {
    hide StopStrings.Run, Deltas;
  }

  lemma {:induction false} ResumeMeans(q: Request, fed: seq<Token>, em: Progress, rng: nat, stream: seq<nat>,
                                       chunks: seq<string>)
    returns (stream': seq<nat>)
    requires Going(q, fed, em, rng, stream, chunks) && Resume(q, fed, em, rng).Ended?
    ensures EndedSo(q, Resume(q, fed, em, rng), stream')
    decreases q.params.maxTokens - em.completion, 1
  {
    hide Going, EndedSo, Emit;
    var p := Pick(q, rng, Logit(q.env.compute, fed), em.out);
    PickSamples(q, fed, em, rng, stream, chunks);
    stream' := ContinueMeans(q, fed, em, rng, stream, chunks, p.tok.value, p.rng);
  }

  lemma PickSamples(q: Request, fed: seq<Token>, em: Progress, rng: nat, stream: seq<nat>, chunks: seq<string>)
    requires Going(q, fed, em, rng, stream, chunks) && |Logit(q.env.compute, fed)| == q.env.vocab
    ensures var p := Pick(q, rng, Logit(q.env.compute, fed), em.out);
      p.tok.Some? ==> Samples(q, em.out, rng, p.tok.value, p.rng)
  {
    hide Tracks, Unbroken, Drawn, WentOn;
  }

  lemma {:induction false} ContinueMeans(q: Request, fed: seq<Token>, em: Progress, rng: nat, stream: seq<nat>,
                                         chunks: seq<string>, tok: Token, h: nat)
    returns (stream': seq<nat>)
    requires Going(q, fed, em, rng, stream, chunks) && Samples(q, em.out, rng, tok, h)
    requires Continue(q, fed, em, h, tok).Ended?
    ensures EndedSo(q, Continue(q, fed, em, h, tok), stream')
    decreases q.params.maxTokens - em.completion, 0
  {
    hide Going, EndedSo, Emit, Samples;
    var more;
    stream', more := TokenMeans(q, fed, em, rng, stream, chunks, tok, h);
    var e := Emit(q, em, tok);
    if e.finish.None? {
      stream' := ResumeMeans(q, fed + [tok], e.em, h, stream', more);
    }
  }

  lemma FirstGoing(q: Request)
    requires q.params.maxTokens > 0
    ensures Going(q, q.prompt, FirstProgress(q), FirstRng(q), [FirstRng(q)], [])
  {
    FirstTracks(q);
    assert q.prompt + [] == q.prompt;
  }

  // ----- the answer ---------------------------------------------------------------------------

  /** What the callback had got when the last token was accounted for. */
  ghost function Heard(q: Request): seq<Piece> {
    var run := Resume(q, q.prompt, FirstProgress(q), FirstRng(q));
    if run.Ended? then run.em.sink.delivered else []
  }

  lemma CloseGrows(q: Request, sink: Sink)
    ensures sink.delivered <= CloseSink(q, sink).delivered
  {
    hide Dispatch, Flushed;
    match sink.splitter {
      case None =>
      case Some(sp) => DispatchGrows(q, Flow(sink.(splitter := Some(sp.(pending := ""))), false), Flushed(sp));
    }
  }

  lemma ShowGrows(q: Request, sink: Sink, s: string)
    ensures sink.delivered <= Decoding.Show(q, sink, s).sink.delivered
  {
    hide Dispatch, Pushed;
    if s != "" {
      match sink.splitter {
        case None => DispatchGrows(q, Flow(sink, false), [Piece(false, s)]);
        case Some(sp) =>
          ThinkIsProper();
          var d := Pushed(THINK, sp, s);
          DispatchGrows(q, Flow(sink.(splitter := Some(d.st)), false), d.out);
      }
    }
  }

  /** The end of a request changes neither tokens nor count; what is released may
      complete a stop string. */
  lemma FinalizeMeans(q: Request, r: Run)
    requires Finalize(q, r).Completed?
    ensures var a := Finalize(q, r);
      r.Ended? && a.fed == r.fed && a.output.tokens == r.em.out && a.output.completion == r.em.completion &&
      r.em.sink.delivered <= a.output.delivered && (r.finish == Aborted ==> a.output.delivered == r.em.sink.delivered) &&
      (a.output.finish == r.finish || (a.output.finish == StopString && r.finish in {Finish.Stop, Length}))
  {
    hide PushResult, Decoding.Show, CloseSink;
    var em := r.em;
    CloseGrows(q, em.sink);
    ShowGrows(q, em.sink, em.pending);
    CloseGrows(q, Decoding.Show(q, em.sink, em.pending).sink);
    if r.finish != Aborted && r.finish != StopString && q.env.flush(q.prompt, em.out).Text? {
      var m := PushResult(Stops(q), em.pending, q.env.flush(q.prompt, em.out).s);
      var sink := Decoding.Show(q, em.sink, m.out).sink;
      ShowGrows(q, em.sink, m.out);
      CloseGrows(q, sink);
      ShowGrows(q, sink, m.pending);
      CloseGrows(q, Decoding.Show(q, sink, m.pending).sink);
    }
  }

  /** The whole of it. Every token is the sampler's pick after those before it and
      none of them ends generation; the run went on after every token but
      perhaps the last. Either the next pick ended it, is counted and was not
      fed, or the last token did: by the budget, a stop string or the callback.
      Then that token was not fed. */
  lemma AnswerMeans(q: Request) returns (stream: seq<nat>)
    requires Solo(q).Completed? && q.params.maxTokens > 0
    ensures var o := Solo(q).output; Drawn(q, o.tokens, stream) && o.completion <= q.params.maxTokens
    ensures var o, fed := Solo(q).output, Solo(q).fed;
      if o.completion == |o.tokens| + 1 then
        WentOn(q, o.tokens) && MeetsEnd(q, o.tokens, stream[|o.tokens|]) && fed == q.prompt + o.tokens &&
        o.finish in {Finish.Stop, StopString}
      else
        o.completion == |o.tokens| > 0 && WentOn(q, o.tokens[..|o.tokens| - 1]) &&
        fed == q.prompt + o.tokens[..|o.tokens| - 1] && o.finish != Finish.Stop
    ensures Solo(q).output.finish == Finish.Stop ==> Solo(q).output.completion == |Solo(q).output.tokens| + 1
    ensures Solo(q).output.finish == Length ==> |Solo(q).output.tokens| == q.params.maxTokens
  {
    hide Going, Drawn, WentOn, MeetsEnd, Resume, Finalize, Unbroken, BrokeAtLast;
    FirstGoing(q);
    var run := Resume(q, q.prompt, FirstProgress(q), FirstRng(q));
    FinalizeMeans(q, run);
    stream := ResumeMeans(q, q.prompt, FirstProgress(q), FirstRng(q), [FirstRng(q)], []);
  }

  /** A callback that asks to stop aborts the run and gets nothing more; otherwise
      it went on after every piece until the last token was accounted for. */
  lemma BreakAborts(q: Request)
    requires Solo(q).Completed? && q.params.maxTokens > 0
    ensures var o := Solo(q).output;
      Heard(q) <= o.delivered &&
      if o.finish == Aborted then BrokeAtLast(q, o.delivered) && o.delivered == Heard(q) else Unbroken(q, Heard(q))
  {
    hide Going, Drawn, WentOn, MeetsEnd, Resume, Finalize, Unbroken, BrokeAtLast;
    FirstGoing(q);
    var run := Resume(q, q.prompt, FirstProgress(q), FirstRng(q));
    FinalizeMeans(q, run);
    var stream := ResumeMeans(q, q.prompt, FirstProgress(q), FirstRng(q), [FirstRng(q)], []);
  }
}
