/** The waiting side of a submission: a slot worker relays the engine's events to
    the request's callback until the reply arrives. */
module BatchClients {
  import opened Wrappers
  import opened Reasoning
  import opened Batchers

  /** Nothing came for a while; a piece; the reply; or the engine is gone. */
  datatype Event = Quiet | Sent(piece: Piece) | Replied(ending: Ending) | Disconnected

  /** The callback gets a piece, or an empty one to ask whether to go on. */
  datatype Call = Ask | Show(piece: Piece)

  predicate Final(e: Event) {
    e.Replied? || e.Disconnected?
  }

  /** Everything the callback could be called with before the last event. */
  function CallsOf(events: seq<Event>): (r: seq<Call>)
    ensures |r| <= |events|
  {
    if events == [] || Final(events[0]) then []
    else [if events[0].Quiet? then Ask else Show(events[0].piece)] + CallsOf(events[1..])
  }

  function ResultOf(events: seq<Event>): Option<Ending> {
    if events == [] then None
    else if events[0].Replied? then Some(events[0].ending)
    else if events[0].Disconnected? then None
    else ResultOf(events[1..])
  }

  function PiecesIn(calls: seq<Call>): seq<Piece> {
    if calls == [] then [] else (if calls[0].Show? then [calls[0].piece] else []) + PiecesIn(calls[1..])
  }

  function PiecesSent(events: seq<Event>): seq<Piece> {
    if events == [] || Final(events[0]) then []
    else (if events[0].Sent? then [events[0].piece] else []) + PiecesSent(events[1..])
  }

  /** The calls made: all of them, or those up to and including the first one
      that breaks. */
  ghost predicate UpToBreak(breaks: seq<Call> -> bool, all: seq<Call>, calls: seq<Call>, cancelled: bool) {
    calls <= all && (forall n | 0 < n < |calls| :: !breaks(calls[..n])) &&
    (cancelled <==> calls != [] && breaks(calls)) && (!cancelled ==> calls == all)
  }

  /** The first `i` events were relayed, none of them the last. */
  ghost predicate Relayed(events: seq<Event>, i: nat, breaks: seq<Call> -> bool, calls: seq<Call>, cancelled: bool) {
    i <= |events| && ResultOf(events) == ResultOf(events[i..]) &&
    calls <= CallsOf(events) && (forall n | 0 < n < |calls| :: !breaks(calls[..n])) &&
    (cancelled <==> calls != [] && breaks(calls)) && (!cancelled ==> CallsOf(events) == calls + CallsOf(events[i..]))
  }

  function CallFor(e: Event): Call
    requires !Final(e)
  {
    if e.Quiet? then Ask else Show(e.piece)
  }

  lemma FirstEvent(events: seq<Event>, i: nat)
    requires i < |events|
    ensures !Final(events[i]) ==> CallsOf(events[i..]) == [CallFor(events[i])] + CallsOf(events[i + 1..])
    ensures !Final(events[i]) ==> ResultOf(events[i..]) == ResultOf(events[i + 1..])
    ensures Final(events[i]) ==> CallsOf(events[i..]) == []
    ensures Final(events[i]) ==> ResultOf(events[i..]) == if events[i].Replied? then Some(events[i].ending) else None
  {
    assert events[i..][0] == events[i] && events[i..][1..] == events[i + 1..];
  }

  lemma RelayedOne(events: seq<Event>, i: nat, breaks: seq<Call> -> bool, calls: seq<Call>)
    requires Relayed(events, i, breaks, calls, false) && i < |events| && !Final(events[i])
    ensures var more := calls + [CallFor(events[i])]; Relayed(events, i + 1, breaks, more, breaks(more))
  {
    hide CallsOf, ResultOf;
    FirstEvent(events, i);
    var more := calls + [CallFor(events[i])];
    assert CallsOf(events) == more + CallsOf(events[i + 1..]);
    forall n | 0 < n < |more| ensures !breaks(more[..n]) {
      assert more[..n] == calls[..n] && (n == |calls| ==> calls[..n] == calls);
    }
  }

  lemma RelayedQuietly(events: seq<Event>, i: nat, breaks: seq<Call> -> bool, calls: seq<Call>)
    requires Relayed(events, i, breaks, calls, true) && i < |events| && !Final(events[i])
    ensures Relayed(events, i + 1, breaks, calls, true)
  {
    hide CallsOf, ResultOf;
    FirstEvent(events, i);
  }

  lemma RelayedAll(events: seq<Event>, i: nat, breaks: seq<Call> -> bool, calls: seq<Call>, cancelled: bool)
    requires Relayed(events, i, breaks, calls, cancelled) && (i < |events| ==> Final(events[i]))
    ensures UpToBreak(breaks, CallsOf(events), calls, cancelled)
    ensures ResultOf(events) == if i < |events| && events[i].Replied? then Some(events[i].ending) else None
  {
    if i < |events| {
      FirstEvent(events, i);
    }
  }

  /** Relay until the reply; after a break the engine is asked to cancel and the
      callback is not called again, but the reply is still awaited. */
  method Relay(events: seq<Event>, breaks: seq<Call> -> bool)
    returns (calls: seq<Call>, cancelled: bool, result: Option<Ending>)
    ensures UpToBreak(breaks, CallsOf(events), calls, cancelled) && result == ResultOf(events)
  {
    hide Relayed, UpToBreak, CallsOf, ResultOf;
    NothingRelayed(events, breaks);
    calls, cancelled := [], false;
    var i := 0;
    while i < |events|
      invariant i <= |events| && Relayed(events, i, breaks, calls, cancelled)
    {
      var e := events[i];
      if Final(e) {
        RelayedAll(events, i, breaks, calls, cancelled);
        return calls, cancelled, if e.Replied? then Some(e.ending) else None;
      }
      if cancelled {
        RelayedQuietly(events, i, breaks, calls);
      } else {
        RelayedOne(events, i, breaks, calls);
        calls := calls + [CallFor(e)];
        cancelled := breaks(calls);
      }
      i := i + 1;
    }
    RelayedAll(events, i, breaks, calls, cancelled);
    result := None;
  }

  lemma NothingRelayed(events: seq<Event>, breaks: seq<Call> -> bool)
    ensures Relayed(events, 0, breaks, [], false)
  {
    assert events[0..] == events;
  }

  lemma {:induction false} PiecesOfCalls(events: seq<Event>)
    ensures PiecesIn(CallsOf(events)) == PiecesSent(events)
  {
    if events != [] && !Final(events[0]) {
      PiecesOfCalls(events[1..]);
      assert CallsOf(events)[1..] == CallsOf(events[1..]);
    }
  }

  /** A callback that never breaks has got every piece the engine sent, in order,
      when the reply arrives. */
  lemma AllRelayed(events: seq<Event>, breaks: seq<Call> -> bool, calls: seq<Call>, cancelled: bool)
    requires UpToBreak(breaks, CallsOf(events), calls, cancelled) && forall c: seq<Call> :: !breaks(c)
    ensures !cancelled && PiecesIn(calls) == PiecesSent(events)
  {
    PiecesOfCalls(events);
  }
}
