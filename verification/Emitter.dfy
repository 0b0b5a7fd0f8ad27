/** Per-request output bookkeeping shared by every decode loop: stop ids,
    detokenization, stop strings, reasoning split, streaming, token budget. */
module Emitters {
  import opened Wrappers
  import opened States
  import opened StopStrings
  import opened Reasoning
  import opened Decoding

  class Emitter {
    const q: Request
    const stops: StopMatcher
    const splitter: ReasoningSplitter?
    var out: seq<Token>
    var text: string
    var reasoning: string
    var delivered: seq<Piece>
    var completion: nat

    ghost const Repr: set<object?>

    ghost predicate Valid()
      reads this, stops
    {
      Repr == {this, stops} + (if splitter == null then {} else {splitter}) &&
      stops.Valid() && stops.stops == Stops(q)
    }

    ghost function SinkNow(): Sink
      reads this, splitter
    {
      Sink(if splitter == null then None else Some(splitter.State()), text, reasoning, delivered)
    }

    ghost function Now(): Progress
      reads this, stops, splitter
    {
      Progress(out, stops.pending, stops.matched, SinkNow(), completion)
    }

    constructor (q: Request)
      ensures Valid() && fresh(Repr) && this.q == q && Now() == FirstProgress(q)
    {
      this.q := q;
      var m := new StopMatcher(q.params.stop);
      stops := m;
      var sp: ReasoningSplitter? := null;
      if q.params.separate {
        sp := new ReasoningSplitter(q.inReasoning);
      }
      splitter := sp;
      out, text, reasoning, delivered, completion := [], "", "", [], 0;
      Repr := {this, m} + (if sp == null then {} else {sp});
    }

    /** Account for every piece; deliver them until the callback breaks. */
    method DispatchAll(pieces: seq<Piece>) returns (broke: bool)
      modifies this`text, this`reasoning, this`delivered
      ensures Flow(SinkNow(), broke) == Dispatch(q, Flow(old(SinkNow()), false), pieces)
      ensures old(delivered) <= delivered
    {
      broke := false;
      var rest := pieces;
      while rest != []
        invariant old(delivered) <= delivered
        invariant Dispatch(q, Flow(SinkNow(), broke), rest) == Dispatch(q, Flow(old(SinkNow()), false), pieces)
        decreases |rest|
      {
        var p := rest[0];
        if p.reasoning {
          reasoning := reasoning + p.text;
        } else {
          text := text + p.text;
        }
        if !broke {
          delivered := delivered + [p];
          broke := q.breaks(delivered);
        }
        rest := rest[1..];
      }
    }

    method ShowText(s: string) returns (broke: bool)
      modifies this`text, this`reasoning, this`delivered, splitter
      ensures Flow(SinkNow(), broke) == Decoding.Show(q, old(SinkNow()), s)
      ensures old(delivered) <= delivered
    {
      if s == "" {
        return false;
      }
      var pieces := [Piece(false, s)];
      if splitter != null {
        pieces := splitter.Push(s);
      }
      broke := DispatchAll(pieces);
    }

    method CloseText()
      modifies this`text, this`reasoning, this`delivered, splitter
      ensures SinkNow() == CloseSink(q, old(SinkNow())) && old(delivered) <= delivered
    {
      if splitter != null {
        var pieces := splitter.Flush();
        var _ := DispatchAll(pieces);
      }
    }

    /** Account for one sampled token; `finish` ends generation and the token
        is then never fed to the model. */
    method Token(tok: Token) returns (r: Option<Option<Finish>>)
      requires Valid()
      modifies Repr
      ensures Valid() && old(delivered) <= delivered
      ensures match Emit(q, old(Now()), tok)
        case EmitFails => r == None
        case Emitted(e, f) => r == Some(f) && Now() == e
    {
      hide PushResult, Decoding.Show, Dispatch;
      completion := completion + 1;
      if EndsGeneration(q, tok) {
        return Some(Some(Finish.Stop));
      }
      out := out + [tok];
      var delta := q.env.push(q.prompt, out);
      if delta.Fails? {
        return None;
      }
      if delta.Text? {
        var safe, hit := stops.Push(delta.s);
        var broke := ShowText(safe);
        if broke {
          return Some(Some(Aborted));
        }
        if hit {
          return Some(Some(StopString));
        }
      }
      return Some(LengthCheck(q, completion));
    }

    /** End of generation: release what is held back. */
    method Complete(ghost fed: seq<Token>, finish: Finish) returns (r: Option<Output>)
      requires Valid()
      modifies Repr
      ensures Valid() && old(delivered) <= delivered && (r.Some? ==> r.value.delivered == delivered)
      ensures var spec := Finalize(q, Ended(fed, old(Now()), finish));
        if r.None? then spec == RequestFails else spec == Completed(r.value, fed)
    {
      hide PushResult, Decoding.Show, CloseSink, Dispatch;
      if finish.Stop? || finish.Length? {
        var rest := q.env.flush(q.prompt, out);
        if rest.Fails? {
          return None;
        }
        if rest.Text? {
          var safe, hit := stops.Push(rest.s);
          var _ := ShowText(safe);
          if hit {
            CloseText();
            return Some(Output(out, text, reasoning, delivered, StopString, stops.matched, completion));
          }
        }
        var held := stops.Flush();
        var _ := ShowText(held);
      }
      if !finish.Aborted? {
        CloseText();
      }
      return Some(Output(out, text, reasoning, delivered, finish, stops.matched, completion));
    }
  }
}
