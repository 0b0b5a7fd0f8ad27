/** What a reply says: the detokenized text of its tokens, cut by the stop
    strings and split into text and reasoning, each as one whole. */
module Replies {
  import opened Wrappers
  import opened States
  import opened StopStrings
  import opened Reasoning
  import opened Decoding

  /** The text completed by each token of `out`, in order. */
  function Deltas(q: Request, out: seq<Token>): seq<string> {
    if out == [] then []
    else
      var before := Deltas(q, out[..|out| - 1]);
      match q.env.push(q.prompt, out)
      case Text(s) => before + [s]
      case _ => before
  }

  /** All of it: the last piece is what the detokenizer still held. */
  function Spoken(q: Request, out: seq<Token>): seq<string> {
    match q.env.flush(q.prompt, out)
    case Text(s) => Deltas(q, out) + [s]
    case _ => Deltas(q, out)
  }

  ghost function ShownBy(sink: Sink): Shown {
    Shown(sink.text, sink.reasoning)
  }

  /** The callback has got all that is shown. */
  ghost predicate Streamed(q: Request, sink: Sink) {
    NeverBreaks(q) ==> Reasoning.Show(sink.delivered) == ShownBy(sink)
  }

  lemma {:induction false} DispatchShows(q: Request, f: Flow, pieces: seq<Piece>)
    ensures var r := Dispatch(q, f, pieces).sink;
      r.splitter == f.sink.splitter && ShownBy(r) == Plus(ShownBy(f.sink), Reasoning.Show(pieces)) &&
      (!f.broke && Streamed(q, f.sink) ==> Streamed(q, r))
    decreases |pieces|
  {
    hide Reasoning.Show;
    ShowNothing(f.sink);
    if pieces != [] {
      var p := pieces[0];
      var s := if p.reasoning then f.sink.(reasoning := f.sink.reasoning + p.text)
               else f.sink.(text := f.sink.text + p.text);
      var s' := if f.broke then s else s.(delivered := s.delivered + [p]);
      DispatchShows(q, Flow(s', f.broke || q.breaks(s'.delivered)), pieces[1..]);
      assert pieces == [p] + pieces[1..];
      ShowAppend([p], pieces[1..]);
      ShowAppend(f.sink.delivered, [p]);
      ShowOne(p);
      PlusAssociative(ShownBy(f.sink), Shows(p.reasoning, p.text), Reasoning.Show(pieces[1..]));
    }
  }

  lemma ShowNothing(sink: Sink)
    ensures Reasoning.Show([]) == Shown("", "") && Plus(ShownBy(sink), Shown("", "")) == ShownBy(sink)
  {
  }

  lemma ShowOne(p: Piece)
    ensures Reasoning.Show([p]) == Shows(p.reasoning, p.text)
  {
    assert [p][1..] == [];
  }

  /** The sink has been given `chunks`. */
  ghost predicate SinkIs(q: Request, sink: Sink, chunks: seq<string>) {
    Streamed(q, sink) &&
    match sink.splitter
    case None => !q.params.separate && ShownBy(sink) == Shown(Flatten(chunks), "")
    case Some(sp) =>
      ThinkIsProper();
      var d := Fed(THINK, q.inReasoning, chunks);
      q.params.separate && sp == d.st && ShownBy(sink) == Reasoning.Show(d.out)
  }

  lemma FirstSinkIs(q: Request)
    ensures SinkIs(q, FirstProgress(q).sink, [])
  {
  }

  function Given(chunks: seq<string>, s: string): seq<string> {
    if s == "" then chunks else chunks + [s]
  }

  lemma GivenAll(chunks: seq<string>, s: string)
    ensures Flatten(Given(chunks, s)) == Flatten(chunks) + s
  {
    FlattenAppend(chunks, [s]);
    assert Flatten(chunks) + "" == Flatten(chunks);
  }

  lemma {:induction false} ShowKeeps(q: Request, sink: Sink, chunks: seq<string>, s: string)
    requires SinkIs(q, sink, chunks)
    ensures SinkIs(q, Decoding.Show(q, sink, s).sink, Given(chunks, s))
  {
    hide Dispatch, Fed, Reasoning.Show, Pushed, Streamed;
    GivenAll(chunks, s);
    if s != "" {
      match sink.splitter {
        case None =>
          DispatchShows(q, Flow(sink, false), [Piece(false, s)]);
          ShowOne(Piece(false, s));
        case Some(sp) =>
          ThinkIsProper();
          var d := Pushed(THINK, sp, s);
          StreamedStill(q, sink, d.st);
          DispatchShows(q, Flow(sink.(splitter := Some(d.st)), false), d.out);
          FedSnoc(THINK, q.inReasoning, chunks, s);
          ShowAppend(Fed(THINK, q.inReasoning, chunks).out, d.out);
      }
    }
  }

  lemma StreamedStill(q: Request, sink: Sink, st: Split)
    requires Streamed(q, sink)
    ensures Streamed(q, sink.(splitter := Some(st)))
  {
  }

  /** What a sink given `v` shows once closed. */
  ghost predicate Says(q: Request, sink: Sink, v: string) {
    Streamed(q, sink) &&
    ShownBy(sink) ==
      if q.params.separate then
        ThinkIsProper();
        SplitWhole(THINK, q.inReasoning, v)
      else Shown(v, "")
  }

  lemma {:induction false} CloseSays(q: Request, sink: Sink, chunks: seq<string>)
    requires SinkIs(q, sink, chunks)
    ensures Says(q, CloseSink(q, sink), Flatten(chunks))
  {
    hide Dispatch, Fed, Reasoning.Show, SplitWhole, Flushed, Streamed;
    match sink.splitter {
      case None =>
      case Some(sp) =>
        ThinkIsProper();
        var d := Fed(THINK, q.inReasoning, chunks);
        StreamedStill(q, sink, sp.(pending := ""));
        DispatchShows(q, Flow(sink.(splitter := Some(sp.(pending := ""))), false), Flushed(sp));
        ShowAppend(d.out, Flushed(sp));
        AnyChunkingSplitsWhole(THINK, q.inReasoning, chunks);
    }
  }

  /** The output so far is what the stop matcher released of the text so far. */
  ghost predicate Tracks(q: Request, em: Progress, chunks: seq<string>) {
    StopStrings.Run(Stops(q), Deltas(q, em.out)) == Feed(Flatten(chunks), em.pending, em.matched) &&
      SinkIs(q, em.sink, chunks)
  }

  lemma FirstTracks(q: Request)
    ensures Tracks(q, FirstProgress(q), [])
  {
    FirstSinkIs(q);
  }

  lemma RunSnoc(stops: seq<string>, chunks: seq<string>, s: string)
    requires StopStrings.Run(stops, chunks).matched.None?
    ensures StopStrings.Run(stops, chunks + [s]) == PushOnto(stops, StopStrings.Run(stops, chunks), s)
  {
    assert (chunks + [s])[..|chunks|] == chunks;
  }

  /** One token more. */
  lemma EmitTracks(q: Request, em: Progress, tok: Token, chunks: seq<string>) returns (more: seq<string>)
    requires Tracks(q, em, chunks) && em.matched.None? && Emit(q, em, tok).Emitted?
    ensures var e := Emit(q, em, tok);
      Tracks(q, e.em, more) && (e.finish.None? ==> e.em.matched.None?) &&
      (e.finish.Some? && e.finish != Some(Aborted) ==> (e.finish == Some(StopString) <==> e.em.matched.Some?))
  {
    hide SinkIs, PushResult, StopStrings.Run, Decoding.Show;
    more := chunks;
    if !EndsGeneration(q, tok) {
      var out := em.out + [tok];
      assert out[..|out| - 1] == em.out;
      var d := q.env.push(q.prompt, out);
      if d.Text? {
        var r := PushResult(Stops(q), em.pending, d.s);
        more := Given(chunks, r.out);
        RunSnoc(Stops(q), Deltas(q, em.out), d.s);
        GivenAll(chunks, r.out);
        ShowKeeps(q, em.sink, chunks, r.out);
      }
    }
  }

  /** How a run ends. */
  ghost predicate EndsWell(q: Request, r: Run, chunks: seq<string>) {
    r.Ended? && Tracks(q, r.em, chunks) && (r.finish != Aborted ==> (r.finish == StopString <==> r.em.matched.Some?))
  }

  lemma {:induction false} ResumeTracks(q: Request, fed: seq<Token>, em: Progress, rng: nat, chunks: seq<string>)
    returns (more: seq<string>)
    requires Tracks(q, em, chunks) && em.matched.None? && Resume(q, fed, em, rng).Ended?
    ensures EndsWell(q, Resume(q, fed, em, rng), more)
    decreases q.params.maxTokens - em.completion, 1
  {
    hide Tracks, Emit;
    var p := Pick(q, rng, Logit(q.env.compute, fed), em.out);
    more := ContinueTracks(q, fed, em, p.rng, p.tok.value, chunks);
  }

  lemma {:induction false} ContinueTracks(q: Request, fed: seq<Token>, em: Progress, rng: nat, tok: Token,
                                          chunks: seq<string>)
    returns (more: seq<string>)
    requires Tracks(q, em, chunks) && em.matched.None? && Continue(q, fed, em, rng, tok).Ended?
    ensures EndsWell(q, Continue(q, fed, em, rng, tok), more)
    decreases q.params.maxTokens - em.completion, 0
  {
    hide Tracks, Emit;
    more := EmitTracks(q, em, tok, chunks);
    var e := Emit(q, em, tok);
    if e.finish.None? {
      more := ResumeTracks(q, fed + [tok], e.em, rng, more);
    }
  }

  /** The reply to `q` shows `v`, the visible text of the whole run. */
  ghost predicate Tells(q: Request, o: Output, v: Cut) {
    o.stop == v.stop && (o.finish == StopString <==> v.stop.Some?) &&
    Says(q, Sink(None, o.text, o.reasoning, o.delivered), v.text)
  }

  lemma SaysWhatever(q: Request, sink: Sink, v: string)
    requires Says(q, sink, v)
    ensures Says(q, Sink(None, sink.text, sink.reasoning, sink.delivered), v)
  {
    hide SplitWhole;
  }

  lemma FinalizeTells(q: Request, r: Run, chunks: seq<string>)
    requires EndsWell(q, r, chunks) && r.finish != Aborted && Finalize(q, r).Completed?
    ensures Tells(q, Finalize(q, r).output, Outcome(Stops(q), Spoken(q, r.em.out)))
    ensures Finalize(q, r).output.tokens == r.em.out
  {
    hide SinkIs, PushResult, StopStrings.Run, Decoding.Show, CloseSink, Says, Deltas;
    var em := r.em;
    if r.finish == StopString {
      MatchedStays(q, em.out);
      CloseSays(q, em.sink, chunks);
      SaysWhatever(q, CloseSink(q, em.sink), Flatten(chunks));
      assert Flatten(chunks) + "" == Flatten(chunks);
    } else {
      FlushTells(q, r, chunks);
    }
  }

  /** Nothing is added after a match. */
  lemma MatchedStays(q: Request, out: seq<Token>)
    requires StopStrings.Run(Stops(q), Deltas(q, out)).matched.Some?
    ensures StopStrings.Run(Stops(q), Spoken(q, out)) == StopStrings.Run(Stops(q), Deltas(q, out))
    ensures StopStrings.Run(Stops(q), Deltas(q, out)).pending == ""
  {
    hide Deltas;
    var chunks := Deltas(q, out);
    RunMeaning(Stops(q), chunks);
    if q.env.flush(q.prompt, out).Text? {
      var s := q.env.flush(q.prompt, out).s;
      assert (chunks + [s])[..|chunks|] == chunks;
    }
  }

  lemma FlushTells(q: Request, r: Run, chunks: seq<string>)
    requires EndsWell(q, r, chunks) && r.finish != Aborted && r.finish != StopString && Finalize(q, r).Completed?
    ensures Tells(q, Finalize(q, r).output, Outcome(Stops(q), Spoken(q, r.em.out)))
    ensures Finalize(q, r).output.tokens == r.em.out
  {
    hide SinkIs, PushResult, StopStrings.Run, Decoding.Show, CloseSink, Says, Deltas;
    var em := r.em;
    var rest := q.env.flush(q.prompt, em.out);
    if rest.Text? {
      RunSnoc(Stops(q), Deltas(q, em.out), rest.s);
      var m := PushResult(Stops(q), em.pending, rest.s);
      ShowKeeps(q, em.sink, chunks, m.out);
      GivenAll(chunks, m.out);
      var sink, given := Decoding.Show(q, em.sink, m.out).sink, Given(chunks, m.out);
      if m.hit.Some? {
        MatchHolds(q, Deltas(q, em.out) + [rest.s]);
        CloseSays(q, sink, given);
        SaysWhatever(q, CloseSink(q, sink), Flatten(given));
        assert Flatten(given) + "" == Flatten(given);
      } else {
        EndSays(q, sink, given, m.pending);
      }
    } else {
      EndSays(q, em.sink, chunks, em.pending);
    }
  }

  lemma MatchHolds(q: Request, chunks: seq<string>)
    requires StopStrings.Run(Stops(q), chunks).matched.Some?
    ensures StopStrings.Run(Stops(q), chunks).pending == ""
  {
    RunMeaning(Stops(q), chunks);
  }

  /** The held text is shown and the sink closed. */
  lemma EndSays(q: Request, sink: Sink, chunks: seq<string>, held: string)
    requires SinkIs(q, sink, chunks)
    ensures var last := CloseSink(q, Decoding.Show(q, sink, held).sink);
      Says(q, Sink(None, last.text, last.reasoning, last.delivered), Flatten(chunks) + held)
  {
    hide SinkIs, Decoding.Show, CloseSink, Says;
    ShowKeeps(q, sink, chunks, held);
    GivenAll(chunks, held);
    var shown := Decoding.Show(q, sink, held).sink;
    CloseSays(q, shown, Given(chunks, held));
    SaysWhatever(q, CloseSink(q, shown), Flatten(chunks) + held);
  }

  /** The text and reasoning of a reply are the one-shot split of the visible
      text: all the text of its tokens as the stop matcher cut it. What the
      callback got, if it never broke, adds up to the same. */
  lemma ReplyTells(q: Request)
    requires Solo(q).Completed? && Solo(q).output.finish != Aborted
    ensures Tells(q, Solo(q).output, Outcome(Stops(q), Spoken(q, Solo(q).output.tokens)))
  {
    hide Tracks, Tells, Resume, Outcome, Spoken;
    FirstTracks(q);
    var run := Resume(q, q.prompt, FirstProgress(q), FirstRng(q));
    var chunks := ResumeTracks(q, q.prompt, FirstProgress(q), FirstRng(q), []);
    AbortsOnlyThen(q, run);
    FinalizeTells(q, run, chunks);
  }

  lemma AbortsOnlyThen(q: Request, r: Run)
    requires Finalize(q, r).Completed?
    ensures r.Ended? && (r.finish == Aborted ==> Finalize(q, r).output.finish == Aborted)
  {
    hide PushResult, Decoding.Show, CloseSink;
  }

  /** With a shadow-free stop list the cut is that of the whole text at its first
      stop string, however the text came out of the detokenizer. */
  lemma ReplyIsCutAndSplit(q: Request)
    requires Solo(q).Completed? && Solo(q).output.finish != Aborted && ShadowFree(Stops(q))
    ensures Tells(q, Solo(q).output, CutAtStop(Stops(q), Flatten(Spoken(q, Solo(q).output.tokens))))
  {
    hide Tells, Outcome, CutAtStop, Solo, ShadowFree, Spoken;
    ReplyTells(q);
    ChunkingInvisible(Stops(q));
  }
}
