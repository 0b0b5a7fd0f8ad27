/** The batch engine: one thread that owns every active session and every idle
    slot's state, admits submissions, steps, streams and retires. */
module Batchers {
  import opened Wrappers
  import opened States
  import opened PromptCaches
  import opened Reasoning
  import opened Decoding
  import opened DecodeLoops
  import opened Generators
  import opened BatchSessions
  import opened BatchSteps

  datatype Submit = Submit(id: nat, slot: nat, prompt: seq<Token>, params: Params, boundaries: seq<nat>)

  datatype Ending = Unavailable | Refused(error: StartError) | Answered(outcome: SessionOutcome) | Broken

  /** The one `Done` event of a submission, after the pieces streamed to it. */
  datatype Closed = Closed(sub: Submit, pieces: seq<Piece>, ending: Ending)

  datatype Active = Active(sub: Submit, session: DecodeSession, sent: seq<Piece>)

  type Idle = Option<Handed>

  // ----- what is owed to a submission -------------------------------------------

  /** The session generates exactly what was submitted. */
  ghost predicate Serves(env: Env, sub: Submit, q: Request) {
    q.env == env && q.params == sub.params && q.prompt == Normalized(env, sub.prompt) && NeverBreaks(q) &&
    q.inReasoning == (sub.params.separate && env.opensReasoning(q.prompt) == Some(true))
  }

  predicate Acceptable(env: Env, sub: Submit) {
    var prompt := Normalized(env, sub.prompt);
    prompt != [] && |prompt| + sub.params.maxTokens <= env.maxSeq && sub.params.maxTokens > 0 &&
    (sub.params.separate ==> env.opensReasoning(prompt).Some?)
  }

  /** The reply, and what was streamed before it, are those of the submission alone. */
  ghost predicate RepliesAlone(env: Env, d: Closed)
    requires d.ending.Answered?
  {
    exists q, out, fed ::
      Serves(env, d.sub, q) && Solo(q) == Completed(out, fed) && d.ending.outcome == Brief(out) && d.pieces == out.delivered
  }

  /** The reply is the one of the request alone, all its text was streamed
      before it; only who is gone is cut short, and errors have a cause. */
  ghost predicate DoneOk(env: Env, d: Closed, gone: set<nat>) {
    match d.ending
    case Unavailable => d.pieces == []
    case Refused(_) => d.pieces == [] && !Acceptable(env, d.sub)
    case Answered(o) => if o.finish == Aborted then d.sub.id in gone else RepliesAlone(env, d)
    case Broken =>
      !ForwardsSure(env) || exists q :: Serves(env, d.sub, q) && (Misshapen(q) || Solo(q) == RequestFails)
  }

  /** A running session, and why it ended if it did. */
  ghost predicate ActiveOk(env: Env, a: Active, gone: set<nat>)
    reads a.session.Footprint()
  {
    var s := a.session;
    s.Valid() && Serves(env, a.sub, s.q) && s.Taken() <= |s.streamed| && a.sent == s.streamed[..s.Taken()] &&
    (s.finish.Some? && s.Result().None? && !s.poisoned ==> a.sub.id in gone) &&
    (s.poisoned ==> !ForwardsSure(env) || Misshapen(s.q) || Solo(s.q) == RequestFails)
  }

  // ----- where the states are ------------------------------------------------------

  function Sessions(active: seq<Active>): (r: seq<DecodeSession>)
    ensures |r| == |active| && forall k | 0 <= k < |active| :: r[k] == active[k].session
  {
    seq(|active|, k requires 0 <= k < |active| => active[k].session)
  }

  ghost function IdleStates(states: seq<Idle>): set<object?> {
    set i | 0 <= i < |states| && states[i].Some? :: states[i].value.state
  }

  /** Each slot's state is in one place: idle, in the one active session of the
      slot, or gone. The published tokens are those of the idle state. */
  ghost predicate Placed(states: seq<Idle>, held: seq<seq<Token>>, active: seq<Active>) {
    |held| == |states| &&
    (forall i | 0 <= i < |states| :: held[i] == if states[i].Some? then states[i].value.fed else []) &&
    (forall k | 0 <= k < |active| :: active[k].sub.slot < |states| && states[active[k].sub.slot].None?) &&
    (forall j, k | 0 <= j < k < |active| :: active[j].sub.slot != active[k].sub.slot)
  }

  ghost predicate Separated(states: seq<Idle>, active: seq<Active>, cache: PromptCache?) {
    Apart(Sessions(active), cache) &&
    (forall i, j | 0 <= i < j < |states| && states[i].Some? && states[j].Some? ::
      states[i].value.state != states[j].value.state) &&
    (forall i, k | 0 <= i < |states| && states[i].Some? && 0 <= k < |active| ::
      states[i].value.state !in active[k].session.Footprint())
  }

  ghost predicate IdleOk(states: seq<Idle>)
    reads IdleStates(states)
  {
    forall i | 0 <= i < |states| && states[i].Some? :: Carries(states[i].value.state, states[i].value.fed)
  }

  ghost predicate ActivesOk(env: Env, active: seq<Active>, gone: set<nat>)
    reads Owned(Sessions(active))
  {
    forall k | 0 <= k < |active| :: ActiveOk(env, active[k], gone)
  }

  // ----- no submission is lost or answered twice --------------------------------------

  ghost function AnsweredSubs(done: seq<Closed>): (r: seq<Submit>)
    ensures |r| == |done| && forall k | 0 <= k < |done| :: r[k] == done[k].sub
  {
    seq(|done|, k requires 0 <= k < |done| => done[k].sub)
  }

  ghost function OpenSubs(active: seq<Active>): (r: seq<Submit>)
    ensures |r| == |active| && forall k | 0 <= k < |active| :: r[k] == active[k].sub
  {
    seq(|active|, k requires 0 <= k < |active| => active[k].sub)
  }

  ghost function Answereds(done: seq<Closed>): multiset<Submit> {
    multiset(AnsweredSubs(done))
  }

  ghost function Opens(active: seq<Active>): multiset<Submit> {
    multiset(OpenSubs(active))
  }

  lemma {:induction false} OpensWithout(active: seq<Active>, i: nat, rest: seq<Active>)
    requires i < |active| && rest == active[..i] + active[i + 1..]
    ensures Opens(active) == Opens(rest) + multiset{active[i].sub}
  {
    var s := OpenSubs(active);
    assert OpenSubs(rest) == s[..i] + s[i + 1..];
    assert s == s[..i] + [s[i]] + s[i + 1..];
  }

  predicate Free(slot: nat, slots: nat, active: seq<Active>) {
    slot < slots && forall k | 0 <= k < |active| :: active[k].sub.slot != slot
  }

  /** How a slot was last used, if it was. */
  ghost function LastUse(done: seq<Closed>, slot: nat): Option<Ending> {
    if done == [] then None
    else
      var d := done[|done| - 1];
      if d.sub.slot == slot && !d.ending.Unavailable? then Some(d.ending) else LastUse(done[..|done| - 1], slot)
  }

  /** A use that leaves no state behind: none so far, a refusal or a failure. */
  ghost predicate Emptied(use: Option<Ending>) {
    use.None? || use.value.Refused? || use.value.Broken?
  }

  /** No state is lost: a free slot has none exactly if its last use says so. */
  ghost predicate Accounted(states: seq<Idle>, active: seq<Active>, done: seq<Closed>) {
    forall i: nat | Free(i, |states|, active) :: states[i].None? <==> Emptied(LastUse(done, i))
  }

  lemma LastUseMore(done: seq<Closed>, d: Closed, slot: nat)
    ensures LastUse(done + [d], slot) ==
      if d.sub.slot == slot && !d.ending.Unavailable? then Some(d.ending) else LastUse(done, slot)
  {
    assert (done + [d])[..|done|] == done;
  }

  lemma {:induction false} AccountedBusy(states: seq<Idle>, active: seq<Active>, done: seq<Closed>, d: Closed)
    requires Accounted(states, active, done) && d.ending.Unavailable?
    ensures Accounted(states, active, done + [d])
  {
    hide Emptied, LastUse;
    forall i: nat | Free(i, |states|, active) ensures states[i].None? <==> Emptied(LastUse(done + [d], i)) {
      LastUseMore(done, d, i);
    }
  }

  lemma {:induction false} AccountedRefused(states: seq<Idle>, active: seq<Active>, done: seq<Closed>, d: Closed)
    requires Accounted(states, active, done) && d.ending.Refused? && d.sub.slot < |states|
    ensures Accounted(states[d.sub.slot := None], active, done + [d])
  {
    hide LastUse;
    var now := states[d.sub.slot := None];
    forall i: nat | Free(i, |now|, active) ensures now[i].None? <==> Emptied(LastUse(done + [d], i)) {
      LastUseMore(done, d, i);
      assert Free(i, |states|, active);
    }
  }

  lemma {:induction false} AccountedStarted(states: seq<Idle>, active: seq<Active>, done: seq<Closed>, a: Active)
    requires Accounted(states, active, done) && a.sub.slot < |states|
    ensures Accounted(states[a.sub.slot := None], active + [a], done)
  {
    hide Emptied, LastUse;
    var now, more := states[a.sub.slot := None], active + [a];
    forall i: nat | Free(i, |now|, more) ensures now[i].None? <==> Emptied(LastUse(done, i)) {
      assert more[|active|] == a && forall k | 0 <= k < |active| :: more[k] == active[k];
      assert Free(i, |states|, active);
    }
  }

  /** Session `i` ends with `d`, and its slot gets a state back unless it failed. */
  lemma {:induction false} AccountedEnded(states: seq<Idle>, active: seq<Active>, done: seq<Closed>, i: nat, d: Closed,
                                          back: Idle)
    requires Accounted(states, active, done) && i < |active| && d.sub == active[i].sub && d.sub.slot < |states|
    requires !d.ending.Unavailable? && (back.None? <==> Emptied(Some(d.ending)))
    ensures Accounted(states[d.sub.slot := back], Omit(active, i), done + [d])
  {
    hide Emptied, LastUse;
    var now, rest := states[d.sub.slot := back], Omit(active, i);
    forall j: nat | Free(j, |now|, rest) ensures now[j].None? <==> Emptied(LastUse(done + [d], j)) {
      LastUseMore(done, d, j);
      if j != d.sub.slot {
        assert forall k | 0 <= k < |active| && k != i :: active[k] == rest[if k < i then k else k - 1];
        assert Free(j, |states|, active);
      }
    }
  }

  lemma {:induction false} AccountedSame(states: seq<Idle>, active: seq<Active>, done: seq<Closed>, i: nat, a: Active)
    requires Accounted(states, active, done) && i < |active| && a.sub == active[i].sub
    ensures Accounted(states, active[i := a], done)
  {
    hide Emptied, LastUse;
    var now := active[i := a];
    forall j: nat | Free(j, |states|, now) ensures states[j].None? <==> Emptied(LastUse(done, j)) {
      assert forall k | 0 <= k < |active| :: active[k].sub == now[k].sub;
      assert Free(j, |states|, active);
    }
  }

  lemma PlacedTaken(states: seq<Idle>, held: seq<seq<Token>>, active: seq<Active>, cache: PromptCache?, slot: nat)
    requires Placed(states, held, active) && Separated(states, active, cache) && slot < |states|
    requires IdleOk(states)
    ensures Placed(states[slot := None], held[slot := []], active)
    ensures Separated(states[slot := None], active, cache) && IdleOk(states[slot := None])
    ensures states[slot].Some? ==> Carries(states[slot].value.state, states[slot].value.fed)
    ensures states[slot].Some? ==> states[slot].value.state !in IdleStates(states[slot := None])
    ensures states[slot].Some? ==> states[slot].value.state !in Owned(Sessions(active))
    ensures |held| == |states| && cache !in Owned(Sessions(active))
  {
    hide Carries;
  }

  /** A session joins that owns nothing anyone else does. */
  lemma {:induction false} Joins(states: seq<Idle>, held: seq<seq<Token>>, active: seq<Active>, cache: PromptCache?,
                                 a: Active)
    requires Placed(states, held, active) && Separated(states, active, cache)
    requires Free(a.sub.slot, |states|, active) && states[a.sub.slot].None?
    requires forall k | 0 <= k < |active| :: active[k].session.Footprint() !! a.session.Footprint()
    requires forall i | 0 <= i < |states| && states[i].Some? :: states[i].value.state !in a.session.Footprint()
    requires a.session.cache == cache && cache !in a.session.Footprint()
    ensures Placed(states, held, active + [a]) && Separated(states, active + [a], cache)
    ensures Opens(active + [a]) == Opens(active) + multiset{a.sub}
  {
    assert OpenSubs(active + [a]) == OpenSubs(active) + [a.sub];
    assert Sessions(active + [a]) == Sessions(active) + [a.session];
  }

  lemma StartedOk(env: Env, sub: Submit, s: DecodeSession, gone: set<nat>)
    requires s.Valid() && s.finish.None? && s.Taken() == 0 && NeverBreaks(s.q) && s.q.env == env && s.q.params == sub.params
    requires s.q.prompt == Normalized(env, sub.prompt) && (sub.params.separate ==> env.opensReasoning(s.q.prompt).Some?)
    requires s.q.inReasoning == (sub.params.separate && env.opensReasoning(s.q.prompt).value)
    ensures ActiveOk(env, Active(sub, s, []), gone)
  {
    hide SoloRun, Solo, ModelState.Holds, NeverBreaks;
  }

  lemma ApartFromAll(states: seq<Idle>, active: seq<Active>, s: DecodeSession)
    requires s.Footprint() !! IdleStates(states) + Owned(Sessions(active))
    ensures forall k | 0 <= k < |active| :: active[k].session.Footprint() !! s.Footprint()
    ensures forall i | 0 <= i < |states| && states[i].Some? :: states[i].value.state !in s.Footprint()
    ensures forall k | 0 <= k < |active| :: active[k].session.Footprint() <= Owned(Sessions(active))
  {
    forall k | 0 <= k < |active| ensures active[k].session.Footprint() <= Owned(Sessions(active)) {
      assert Sessions(active)[k] == active[k].session;
    }
  }

  lemma {:induction false} ActivesMore(env: Env, active: seq<Active>, a: Active, gone: set<nat>)
    requires ActivesOk(env, active, gone) && ActiveOk(env, a, gone)
    ensures ActivesOk(env, active + [a], gone)
    ensures Owned(Sessions(active + [a])) == Owned(Sessions(active)) + a.session.Footprint()
  {
    hide ActiveOk;
    assert Sessions(active + [a]) == Sessions(active) + [a.session];
    OwnedMore(Sessions(active), a.session);
  }

  lemma OwnedMore(ss: seq<DecodeSession>, s: DecodeSession)
    ensures Owned(ss + [s]) == Owned(ss) + s.Footprint()
  {
    assert forall o | o in s.Footprint() :: o in (ss + [s])[|ss|].Footprint();
    assert forall i | 0 <= i < |ss| :: (ss + [s])[i] == ss[i];
  }

  lemma {:induction false} JoinsAll(env: Env, states: seq<Idle>, held: seq<seq<Token>>, active: seq<Active>,
                                    cache: PromptCache?, engine: object, a: Active, gone: set<nat>)
    requires Placed(states, held, active) && Separated(states, active, cache) && ActivesOk(env, active, gone)
    requires engine !in IdleStates(states) + Owned(Sessions(active)) && ActiveOk(env, a, gone)
    requires Free(a.sub.slot, |states|, active) && states[a.sub.slot].None?
    requires a.session.cache == cache
    requires a.session.Footprint() !! IdleStates(states) + Owned(Sessions(active)) + {cache, engine}
    ensures Placed(states, held, active + [a]) && Separated(states, active + [a], cache)
    ensures ActivesOk(env, active + [a], gone) && Opens(active + [a]) == Opens(active) + multiset{a.sub}
    ensures engine !in IdleStates(states) + Owned(Sessions(active + [a]))
    ensures Owned(Sessions(active + [a])) == Owned(Sessions(active)) + a.session.Footprint()
  {
    hide Placed, Separated, ActivesOk, ActiveOk, Opens, Free;
    ApartFromAll(states, active, a.session);
    Joins(states, held, active, cache, a);
    ActivesMore(env, active, a, gone);
  }

  lemma DoneMore(done: seq<Closed>, d: Closed)
    ensures Answereds(done + [d]) == Answereds(done) + multiset{d.sub}
  {
    assert AnsweredSubs(done + [d]) == AnsweredSubs(done) + [d.sub];
  }

  /** The session goes on with what its slot held. */
  ghost predicate RunsOn(s: DecodeSession, given: Idle) {
    given.Some? ==> s.state == given.value.state
  }

  /** Start a session that shares nothing with `others`. */
  method StartApart(env: Env, s: Submit, given: Idle, recurrent: bool, shape: Shape, cache: PromptCache?,
                    prefixCaching: bool, ghost gone: set<nat>, ghost others: set<object?>)
    returns (r: Result<Active, StartError>)
    requires given.Some? ==> Carries(given.value.state, given.value.fed) && given.value.state !in others
    requires CacheOk(cache)
    modifies if given.Some? then {given.value.state} else {}, cache
    ensures CacheOk(cache) && (r.Ok? <==> Acceptable(env, s))
    ensures r.Ok? ==> ActiveOk(env, r.value, gone) && r.value.sub == s
    ensures r.Ok? ==> r.value.session.cache == cache && r.value.session.Footprint() !! others + {cache}
    ensures r.Ok? ==> r.value.session.finish.None? && RunsOn(r.value.session, given)
    ensures r.Ok? ==> forall o | o in r.value.session.Footprint() :: fresh(o) || (given.Some? && o == given.value.state)
  {
    hide CacheOk, Carries, DecodeSession.Valid, NeverBreaks, Normalized, ActiveOk;
    var r0 := BatchSessions.Start(env, s.prompt, s.params, s.boundaries, given, recurrent, shape, cache, prefixCaching);
    match r0 {
      case Err(e) => return Err(e);
      case Ok(session) =>
        StartedOk(env, s, session, gone);
        return Ok(Active(s, session, []));
    }
  }

  /** The work left in each session. */
  ghost predicate Works(active: seq<Active>, work: seq<nat>)
    reads Owned(Sessions(active))
  {
    |work| == |active| && forall k | 0 <= k < |active| :: Left(active[k].session) == work[k]
  }

  ghost function Left(s: DecodeSession): nat
    reads s.Footprint()
  {
    Remaining(s)
  }

  function Omit<T>(s: seq<T>, i: nat): (r: seq<T>)
    requires i < |s|
    ensures |r| == |s| - 1
    ensures forall k | 0 <= k < i :: r[k] == s[k]
    ensures forall k | i <= k < |r| :: r[k] == s[k + 1]
  {
    s[..i] + s[i + 1..]
  }

  lemma InOwned(active: seq<Active>, i: nat)
    requires i < |active|
    ensures active[i].session in active[i].session.Footprint() && active[i].session.Footprint() <= Owned(Sessions(active))
  {
    assert Sessions(active)[i] == active[i].session;
  }

  /** Session `i` seen apart from the others. */
  lemma {:induction false} TakenOut(env: Env, states: seq<Idle>, active: seq<Active>, cache: PromptCache?, i: nat,
                                    gone: set<nat>, work: seq<nat>)
    requires Separated(states, active, cache) && ActivesOk(env, active, gone) && Works(active, work) && i < |active|
    ensures active[i].session !in Owned(Sessions(Omit(active, i))) && |work| == |active|
    ensures ActivesOk(env, Omit(active, i), gone) && ActiveOk(env, active[i], gone)
    ensures Works(Omit(active, i), Omit(work, i)) && Left(active[i].session) == work[i]
  {
    hide ActiveOk, Left, DecodeSession.Footprint;
    InOwned(active, i);
    var ss, rest := Sessions(active), Sessions(Omit(active, i));
    forall k | 0 <= k < |rest| ensures rest[k].Footprint() !! ss[i].Footprint() {
      var j := if k < i then k else k + 1;
      assert rest[k] == ss[j];
      ApartFrom(ss, cache, i);
    }
  }

  /** Session `i` changed, the others did not. */
  lemma {:induction false} PutBack(env: Env, active: seq<Active>, i: nat, a: Active, gone: set<nat>, work: seq<nat>)
    requires i < |active| && a.session == active[i].session && |work| == |active|
    requires ActivesOk(env, Omit(active, i), gone) && ActiveOk(env, a, gone)
    requires Works(Omit(active, i), Omit(work, i))
    ensures ActivesOk(env, active[i := a], gone) && Works(active[i := a], work[i := Left(a.session)])
  {
    hide ActiveOk, Left, DecodeSession.Footprint, Apart;
    var rest, now := Omit(active, i), active[i := a];
    assert Sessions(now) == Sessions(active);
    forall k | 0 <= k < |now| ensures ActiveOk(env, now[k], gone) && Left(now[k].session) == work[i := Left(a.session)][k] {
      if k != i {
        assert now[k] == rest[if k < i then k else k - 1];
      }
    }
  }

  lemma {:induction false} SameShape(states: seq<Idle>, held: seq<seq<Token>>, active: seq<Active>, cache: PromptCache?,
                                     i: nat, a: Active)
    requires Placed(states, held, active) && Separated(states, active, cache) && i < |active|
    requires a.sub == active[i].sub && a.session == active[i].session
    ensures Placed(states, held, active[i := a]) && Separated(states, active[i := a], cache)
    ensures Opens(active[i := a]) == Opens(active) && Sessions(active[i := a]) == Sessions(active)
  {
    hide Apart, DecodeSession.Footprint;
    assert Sessions(active[i := a]) == Sessions(active) && OpenSubs(active[i := a]) == OpenSubs(active);
  }

  /** A session asked to stop is finished: as it was, or aborted. */
  function Stopped(asked: bool, finish: Option<Finish>): Option<Finish> {
    if asked && finish.None? then Some(Aborted) else finish
  }

  method CancelAt(env: Env, ghost states: seq<Idle>, active: seq<Active>, ghost cache: PromptCache?, i: nat,
                  ghost gone: set<nat>, ghost work: seq<nat>)
    returns (ghost less: seq<nat>)
    requires Separated(states, active, cache) && ActivesOk(env, active, gone) && Works(active, work) && i < |active|
    requires active[i].sub.id in gone
    modifies active[i].session
    ensures ActivesOk(env, active, gone) && Works(active, less)
    ensures |less| == |work| && forall k | 0 <= k < |less| :: less[k] <= work[k]
    ensures active[i].session.finish == Stopped(true, old(active[i].session.finish))
  {
    hide Separated, ActivesOk, ActiveOk, Works, Left, Sessions, Omit;
    TakenOut(env, states, active, cache, i, gone, work);
    CancelActive(env, active[i], gone);
    PutBack(env, active, i, active[i], gone, work);
    assert active[i := active[i]] == active;
    less := work[i := Left(active[i].session)];
  }

  method CancelActive(env: Env, a: Active, ghost gone: set<nat>)
    requires ActiveOk(env, a, gone) && a.sub.id in gone
    modifies a.session
    ensures ActiveOk(env, a, gone) && Left(a.session) <= old(Left(a.session))
    ensures a.session.finish == Stopped(true, old(a.session.finish))
  {
    hide Solo, SoloRun, ModelState.Holds, Misshapen, ForwardsSure, Serves;
    a.session.Cancel();
  }

  lemma Distinct(states: seq<Idle>, active: seq<Active>, cache: PromptCache?, i: nat)
    requires Separated(states, active, cache) && i < |active|
    ensures forall k | 0 <= k < |active| && k != i :: active[k].session != active[i].session
  {
    ApartFrom(Sessions(active), cache, i);
    forall k | 0 <= k < |active| && k != i ensures active[k].session != active[i].session {
      assert Sessions(active)[k] in Sessions(active)[k].Footprint();
    }
  }

  /** What streaming makes of a session: it goes on with everything sent, or it
      leaves with its last event and what its slot gets back. */
  datatype Fate = Stays(active: Active) | Departs(closed: Closed, back: Idle)

  /** A session that fails loses its state. */
  ghost function Back(s: DecodeSession): Idle
    reads s
  {
    if s.poisoned then None else Some(Handed(s.state, s.fed))
  }

  /** It leaves if it is finished, or if pieces are due to a client that hung up. */
  ghost function FateOf(a: Active, hungUp: set<nat>): Fate
    reads a.session
  {
    var s := a.session;
    if s.finish.Some? then Departs(Closed(a.sub, s.streamed, EndingOf(s)), Back(s))
    else if a.sub.id in hungUp && s.Taken() < |s.streamed| then
      Departs(Closed(a.sub, s.streamed, Answered(SessionOutcome(s.out, Aborted, None, s.completion))), Back(s))
    else Stays(a.(sent := s.streamed))
  }

  ghost function Kept(f: Fate): seq<Active> {
    if f.Stays? then [f.active] else []
  }

  ghost function Told(f: Fate): seq<Closed> {
    if f.Departs? then [f.closed] else []
  }

  ghost function Returned(states: seq<Idle>, f: Fate): (r: seq<Idle>)
    ensures |r| == |states|
  {
    if f.Departs? && f.closed.sub.slot < |states| then states[f.closed.sub.slot := f.back] else states
  }

  /** Those who stay, in order. */
  ghost function Staying(fates: seq<Fate>): seq<Active> {
    if fates == [] then [] else Staying(fates[..|fates| - 1]) + Kept(fates[|fates| - 1])
  }

  /** The events of those who leave, in order. */
  ghost function Closings(fates: seq<Fate>): seq<Closed> {
    if fates == [] then [] else Closings(fates[..|fates| - 1]) + Told(fates[|fates| - 1])
  }

  /** The slots of those who leave get their states back. */
  ghost function Vacated(states: seq<Idle>, fates: seq<Fate>): (r: seq<Idle>)
    ensures |r| == |states|
  {
    if fates == [] then states else Returned(Vacated(states, fates[..|fates| - 1]), fates[|fates| - 1])
  }

  ghost predicate Fated(active: seq<Active>, hungUp: set<nat>, fates: seq<Fate>)
    reads set k | 0 <= k < |active| :: active[k].session
  {
    |fates| == |active| && forall k | 0 <= k < |active| :: fates[k] == FateOf(active[k], hungUp)
  }

  /** The session is as its fate says. */
  ghost predicate Met(a: Active, fate: Fate)
    reads a.session
  {
    match fate
    case Stays(b) => a == b && a.session.finish.None?
    case Departs(d, back) =>
      a.session.finish.Some? && d == Closed(a.sub, a.sent, EndingOf(a.session)) && back == Back(a.session)
  }

  lemma FateNext(states: seq<Idle>, fates: seq<Fate>, p: nat)
    requires p < |fates|
    ensures Staying(fates[..p + 1]) == Staying(fates[..p]) + Kept(fates[p])
    ensures Closings(fates[..p + 1]) == Closings(fates[..p]) + Told(fates[p])
    ensures Vacated(states, fates[..p + 1]) == Returned(Vacated(states, fates[..p]), fates[p])
    ensures fates[p..][0] == fates[p] && fates[p..][1..] == fates[p + 1..]
  {
    assert fates[..p + 1][..p] == fates[..p];
  }

  lemma NoFates(states: seq<Idle>)
    ensures Staying([]) == [] && Closings([]) == [] && Vacated(states, []) == states
  {
  }

  lemma FatedRest(active: seq<Active>, i: nat, hungUp: set<nat>, fates: seq<Fate>)
    requires i < |active| && Fated(active[i..], hungUp, fates)
    ensures |fates| == |active| - i && forall k | i <= k < |active| :: fates[k - i] == FateOf(active[k], hungUp)
  {
    hide FateOf;
    forall k | i <= k < |active| ensures fates[k - i] == FateOf(active[k], hungUp) {
      assert active[i..][k - i] == active[k];
    }
  }

  lemma RestFated(active: seq<Active>, rest: seq<Active>, i: nat, next: nat, hungUp: set<nat>, fates: seq<Fate>)
    requires i < |active| && |fates| == |active| - i
    requires forall k | i < k < |active| :: fates[k - i] == FateOf(active[k], hungUp)
    requires (next == i + 1 && rest == active) || (next == i && rest == Omit(active, i))
    ensures next <= |rest| && Fated(rest[next..], hungUp, fates[1..])
  {
    hide FateOf;
    assert rest[next..] == active[i + 1..];
    forall k | 0 <= k < |rest| - next ensures fates[1..][k] == FateOf(rest[next..][k], hungUp) {
      assert rest[next..][k] == active[i + 1 + k];
    }
  }

  lemma SameLength(active: seq<Active>, hungUp: set<nat>, fates: seq<Fate>)
    requires Fated(active, hungUp, fates)
    ensures |fates| == |active|
  {
  }

  lemma {:induction false} NobodyStays(fates: seq<Fate>)
    requires forall f | f in fates :: f.Departs?
    ensures Staying(fates) == []
  {
    if fates != [] {
      assert fates[|fates| - 1] in fates;
      NobodyStays(fates[..|fates| - 1]);
    }
  }

  lemma SpentDepart(active: seq<Active>, hungUp: set<nat>, fates: seq<Fate>)
    requires Fated(active, hungUp, fates)
    ensures Spent(active) ==> Staying(fates) == []
  {
    hide Staying;
    if Spent(active) {
      NobodyStays(fates);
    }
  }

  lemma FatesOf(active: seq<Active>, hungUp: set<nat>) returns (fates: seq<Fate>)
    ensures Fated(active, hungUp, fates)
  {
    hide FateOf;
    fates := [];
    for i := 0 to |active|
      invariant |fates| == i && forall k | 0 <= k < i :: fates[k] == FateOf(active[k], hungUp)
    {
      fates := fates + [FateOf(active[i], hungUp)];
    }
  }

  /** Send what was streamed since; a client that hung up is gone. */
  method StreamAt(env: Env, ghost states: seq<Idle>, active: seq<Active>, ghost cache: PromptCache?, i: nat,
                  hungUp: set<nat>, ghost gone: set<nat>, ghost work: seq<nat>)
    returns (after: seq<Active>, ghost less: seq<nat>)
    requires Separated(states, active, cache) && ActivesOk(env, active, gone) && Works(active, work) && i < |active|
    requires hungUp <= gone
    modifies active[i].session
    ensures |after| == |active| && after[i].sub == active[i].sub && after[i].session == active[i].session
    ensures after == active[i := after[i]] && after[i].sent == active[i].session.streamed
    ensures ActivesOk(env, after, gone) && Works(after, less)
    ensures |less| == |work| && forall k | 0 <= k < |less| :: less[k] <= work[k]
    ensures Met(after[i], old(FateOf(active[i], hungUp)))
  {
    hide Separated, ActivesOk, ActiveOk, Works, Left, Sessions, FateOf, Met, Omit;
    TakenOut(env, states, active, cache, i, gone, work);
    var a := StreamActive(env, active[i], hungUp, gone);
    PutBack(env, active, i, a, gone, work);
    after, less := active[i := a], work[i := Left(a.session)];
  }

  method StreamActive(env: Env, was: Active, hungUp: set<nat>, ghost gone: set<nat>) returns (a: Active)
    requires ActiveOk(env, was, gone) && hungUp <= gone
    modifies was.session
    ensures ActiveOk(env, a, gone) && a.sub == was.sub && a.session == was.session
    ensures a.sent == was.session.streamed && Left(a.session) <= old(Left(was.session))
    ensures Met(a, old(FateOf(was, hungUp)))
  {
    hide Solo, SoloRun, ModelState.Holds, Misshapen, ForwardsSure, Serves, DecodeSession.OnTrack, NeverBreaks, PlanOk,
         Fits;
    var events := was.session.TakeEvents();
    a := was.(sent := was.sent + events);
    if events != [] && a.sub.id in hungUp {
      a.session.Cancel();
    }
  }

  /** What a finished session's client is told: an error goes first. */
  function EndingOf(s: DecodeSession): Ending
    requires s.finish.Some?
    reads s
  {
    if s.poisoned then Broken else Answered(s.Outcome())
  }

  lemma EndingOk(env: Env, a: Active, gone: set<nat>)
    requires ActiveOk(env, a, gone) && a.session.finish.Some? && a.sent == a.session.streamed
    ensures DoneOk(env, Closed(a.sub, a.sent, EndingOf(a.session)), gone)
    ensures !a.session.poisoned ==> Carries(a.session.state, a.session.fed)
  {
    hide SoloRun, Solo, Misshapen, ForwardsSure, ModelState.Holds;
    if a.session.Result().Some? {
      assert Serves(env, a.sub, a.session.q) && Solo(a.session.q) == Completed(a.session.Result().value, a.session.fed);
    }
  }

  lemma {:induction false} FinishedOk(env: Env, active: seq<Active>, i: nat, gone: set<nat>)
    requires ActivesOk(env, active, gone) && i < |active|
    requires var a := active[i]; a.session.finish.Some? && a.sent == a.session.streamed
    ensures var a := active[i];
      DoneOk(env, Closed(a.sub, a.sent, EndingOf(a.session)), gone)
    ensures !active[i].session.poisoned ==> Carries(active[i].session.state, active[i].session.fed)
    ensures ActivesOk(env, Omit(active, i), gone)
  {
    hide ActiveOk, DoneOk, Carries;
    EndingOk(env, active[i], gone);
    var rest := Omit(active, i);
    assert forall k | 0 <= k < |rest| :: rest[k] == active[if k < i then k else k + 1];
  }

  lemma IdlePut(states: seq<Idle>, slot: nat, given: Idle)
    requires IdleOk(states) && slot < |states|
    requires given.Some? ==> Carries(given.value.state, given.value.fed)
    ensures IdleOk(states[slot := given])
    ensures IdleStates(states[slot := given]) <= IdleStates(states) + if given.Some? then {given.value.state} else {}
  {
    hide Carries;
  }

  /** Session `i` leaves and its slot gets `given` back. */
  lemma {:induction false} Leaves(states: seq<Idle>, held: seq<seq<Token>>, active: seq<Active>, cache: PromptCache?,
                                  i: nat, given: Idle)
    requires Placed(states, held, active) && Separated(states, active, cache) && i < |active|
    requires given.Some? ==> given.value.state == active[i].session.state
    ensures active[i].sub.slot < |states| == |held|
    ensures var slot := active[i].sub.slot;
      Placed(states[slot := given], if given.Some? then held[slot := given.value.fed] else held, Omit(active, i))
    ensures Separated(states[active[i].sub.slot := given], Omit(active, i), cache)
    ensures Opens(active) == Opens(Omit(active, i)) + multiset{active[i].sub}
    ensures Owned(Sessions(Omit(active, i))) <= Owned(Sessions(active))
    ensures given.Some? ==> given.value.state in Owned(Sessions(active))
  {
    hide Owned, Apart, DecodeSession.Footprint;
    LeavesApart(active, cache, i);
    OpensWithout(active, i, Omit(active, i));
    SeparatedSession(active, i);
  }

  lemma SeparatedSession(active: seq<Active>, i: nat)
    requires i < |active|
    ensures active[i].session.state in active[i].session.Footprint()
    ensures active[i].session.state in Owned(Sessions(active))
  {
    InOwned(active, i);
  }

  lemma {:induction false} LeavesApart(active: seq<Active>, cache: PromptCache?, i: nat)
    requires Apart(Sessions(active), cache) && i < |active|
    ensures Apart(Sessions(Omit(active, i)), cache)
    ensures forall k | 0 <= k < |Omit(active, i)| :: active[i].session.state !in Omit(active, i)[k].session.Footprint()
    ensures Owned(Sessions(Omit(active, i))) <= Owned(Sessions(active))
  {
    var ss, rest := Sessions(active), Sessions(Omit(active, i));
    ApartFrom(ss, cache, i);
    assert forall k | 0 <= k < |rest| :: rest[k] == ss[if k < i then k else k + 1];
  }

  lemma NoWork(active: seq<Active>, work: seq<nat>)
    requires Works(active, work)
    ensures |work| == |active| && (active == [] ==> Sum(work) == 0)
  {
  }

  /** More `Done` events, none of them for a busy slot. */
  ghost predicate Extends(before: seq<Closed>, done: seq<Closed>) {
    before <= done && forall k | |before| <= k < |done| :: !done[k].ending.Unavailable?
  }

  lemma ExtendsOn(a: seq<Closed>, b: seq<Closed>, c: seq<Closed>)
    ensures Extends(a, b) && Extends(b, c) ==> Extends(a, c)
    ensures Extends(a, a) && (Extends(a, b) ==> a <= b) && (Extends(b, c) ==> b <= c)
  {
    if Extends(a, b) && Extends(b, c) {
      assert a <= c;
    }
  }

  // ----- what the clients do -------------------------------------------------------

  /** What the clients send at poll `t`, having sent `received` and got `done`. */
  type Clients = (nat, seq<Submit>, seq<Closed>) -> Option<Submit>

  /** Nobody has an unanswered submission on the slot. */
  ghost predicate Quiet(received: seq<Submit>, done: seq<Closed>, slot: nat) {
    forall s | s in multiset(received) - Answereds(done) :: s.slot != slot
  }

  /** Each submission is for an existing slot that has none unanswered; so do
      the slot workers. */
  ghost predicate Disciplined(clients: Clients, slots: nat) {
    forall t: nat, received: seq<Submit>, done: seq<Closed> ::
      match clients(t, received, done)
      case None => true
      case Some(s) => s.slot < slots && Quiet(received, done, s.slot)
  }

  /** A poll, made when `seen` events had been sent. */
  datatype Polled = Polled(seen: nat, came: Option<Submit>)

  function Came(came: Option<Submit>): seq<Submit> {
    match came
    case None => []
    case Some(s) => [s]
  }

  function Arrivals(polls: seq<Polled>): seq<Submit> {
    if polls == [] then [] else Arrivals(polls[..|polls| - 1]) + Came(polls[|polls| - 1].came)
  }

  /** `received` is what came before and all the clients answered to the polls,
      each knowing what had been sent to them by then. */
  ghost predicate Heard(clients: Clients, polls: seq<Polled>, first: seq<Submit>, received: seq<Submit>,
                        done: seq<Closed>) {
    received == first + Arrivals(polls) &&
    forall t: nat | t < |polls| ::
      polls[t].seen <= |done| && polls[t].came == clients(t, first + Arrivals(polls[..t]), done[..polls[t].seen])
  }

  lemma HeardNothing(clients: Clients, first: seq<Submit>, done: seq<Closed>)
    ensures Heard(clients, [], first, first, done)
  {
  }

  lemma HeardStill(clients: Clients, polls: seq<Polled>, first: seq<Submit>, received: seq<Submit>, before: seq<Closed>,
                   done: seq<Closed>)
    requires Heard(clients, polls, first, received, before) && before <= done
    ensures Heard(clients, polls, first, received, done)
  {
    hide Arrivals;
    forall t: nat | t < |polls|
      ensures polls[t].seen <= |done| && polls[t].came == clients(t, first + Arrivals(polls[..t]), done[..polls[t].seen])
    {
      assert before[..polls[t].seen] == done[..polls[t].seen];
    }
  }

  lemma ArrivalsMore(polls: seq<Polled>, p: Polled)
    ensures Arrivals(polls + [p]) == Arrivals(polls) + Came(p.came)
  {
    assert (polls + [p])[..|polls|] == polls;
  }

  lemma HeardMore(clients: Clients, polls: seq<Polled>, first: seq<Submit>, received: seq<Submit>, before: seq<Closed>,
                  came: Option<Submit>, done: seq<Closed>)
    requires Heard(clients, polls, first, received, before) && before <= done
    requires came == clients(|polls|, received, before)
    ensures Heard(clients, polls + [Polled(|before|, came)], first, received + Came(came), done)
  {
    hide Arrivals, Came;
    HeardStill(clients, polls, first, received, before, done);
    ArrivalsMore(polls, Polled(|before|, came));
    var more := polls + [Polled(|before|, came)];
    assert more[..|polls|] == polls && done[..|before|] == before;
    assert first + (Arrivals(polls) + Came(came)) == received + Came(came);
    forall t: nat | t < |more|
      ensures more[t].seen <= |done| && more[t].came == clients(t, first + Arrivals(more[..t]), done[..more[t].seen])
    {
      if t < |polls| {
        assert more[..t] == polls[..t];
      }
    }
  }

  /** The client asked to stop, or no longer listened, in some round. */
  ghost predicate WentAway(asked: nat -> set<nat>, hungUp: nat -> set<nat>, id: nat) {
    exists t :: id in asked(t) || id in hungUp(t)
  }

  lemma Gone(asked: nat -> set<nat>, hungUp: nat -> set<nat>, t: nat)
    ensures forall id | id in asked(t) + hungUp(t) :: WentAway(asked, hungUp, id)
  {
  }

  /** The submission was answered as if it had been alone. */
  ghost predicate AsAlone(env: Env, d: Closed) {
    d.ending.Answered? && RepliesAlone(env, d)
  }

  /** Without failures of the model, the sampler or the detokenizer, whoever
      stays and asks for something acceptable gets the reply it would get alone. */
  lemma Served(env: Env, d: Closed, gone: set<nat>)
    requires DoneOk(env, d, gone) && ForwardsSure(env) && NeverFails(env)
    requires d.sub.id !in gone && Acceptable(env, d.sub) && !d.ending.Unavailable?
    ensures AsAlone(env, d)
  {
    hide Solo, Serves, Misshapen;
    if d.ending.Broken? {
      var q :| Serves(env, d.sub, q) && (Misshapen(q) || Solo(q) == RequestFails);
      EnvOf(env, d.sub, q);
      NothingMayFail(q);
    }
  }

  lemma EnvOf(env: Env, sub: Submit, q: Request)
    requires Serves(env, sub, q)
    ensures q.env == env
  {
  }

  class Engine {
    const env: Env
    const recurrent: bool
    const shape: Shape
    const cache: PromptCache?
    const prefixCaching: bool
    const chunk: nat
    const budget: nat
    var states: seq<Idle>
    var held: seq<seq<Token>>
    var active: seq<Active>
    /** `Done` events sent so far. */
    var done: seq<Closed>
    /** Submissions so far, in the order they came. */
    var received: seq<Submit>
    /** Clients that asked to stop, or no longer listen. */
    ghost var gone: set<nat>

    ghost function Objects(): set<object?>
      reads this
    {
      IdleStates(states) + Owned(Sessions(active))
    }

    /** The invariant, with the submissions `owed` received but neither running
        nor answered. */
    ghost predicate Owing(owed: multiset<Submit>)
      reads this, IdleStates(states), Owned(Sessions(active)), cache
    {
      Placed(states, held, active) && Separated(states, active, cache) && IdleOk(states) && ActivesOk(env, active, gone) &&
      CacheOk(cache) && this !in Objects() && (forall d | d in done :: DoneOk(env, d, gone)) &&
      multiset(received) == Answereds(done) + Opens(active) + owed
    }

    ghost predicate Valid()
      reads this, IdleStates(states), Owned(Sessions(active)), cache
    {
      Owing(multiset{}) && Accounted(states, active, done)
    }

    constructor (env: Env, recurrent: bool, shape: Shape, cache: PromptCache?, prefixCaching: bool, slots: nat,
                 chunk: nat, budget: nat)
      requires CacheOk(cache)
      ensures Valid() && |states| == (if slots < 1 then 1 else slots) && active == [] && done == []
    {
      this.env, this.recurrent, this.shape, this.cache := env, recurrent, shape, cache;
      this.prefixCaching, this.chunk, this.budget := prefixCaching, chunk, budget;
      var n := if slots < 1 then 1 else slots;
      states := seq(n, i => None);
      held := seq(n, i => []);
      active, done := [], [];
      received, gone := [], {};
    }

    /** Send `Done`. */
    method Close(d: Closed, ghost work: seq<nat>)
      requires Owing(multiset{d.sub}) && DoneOk(env, d, gone) && Accounted(states, active, done + [d])
      modifies this`done
      ensures Valid() && done == old(done) + [d]
      ensures old(Works(active, work)) ==> Works(active, work)
    {
      hide Placed, Separated, ActivesOk, Works, IdleOk, CacheOk, Answereds, Opens, DoneOk, Apart, Accounted;
      DoneMore(done, d);
      done := done + [d];
    }

    method Enlist(a: Active)
      requires Owing(multiset{a.sub}) && ActiveOk(env, a, gone) && Accounted(states, active + [a], done)
      requires Free(a.sub.slot, |states|, active) && states[a.sub.slot].None?
      requires a.session.cache == cache && a.session.Footprint() !! Objects() + {cache, this}
      modifies this`active
      ensures Valid() && active == old(active) + [a] && Objects() == old(Objects()) + a.session.Footprint()
    {
      hide Placed, Separated, ActivesOk, ActiveOk, IdleOk, CacheOk, Answereds, Opens, DoneOk, Apart, Owned, Sessions,
           IdleStates, DecodeSession.Footprint, Accounted;
      JoinsAll(env, states, held, active, cache, this, a, gone);
      active := active + [a];
    }

    /** Start the submission on its slot, or answer that it cannot be. */
    method Admit(s: Submit)
      requires Valid()
      modifies this`states, this`held, this`active, this`done, this`received, IdleStates(states), cache
      ensures Valid() && received == old(received) + [s] && |states| == |old(states)|
      ensures Free(s.slot, |states|, old(active)) && Acceptable(env, s) ==>
        done == old(done) && |active| == |old(active)| + 1 && active[..|old(active)|] == old(active) &&
        active[|old(active)|].sub == s && RunsOn(active[|old(active)|].session, old(states)[s.slot])
      ensures !(Free(s.slot, |states|, old(active)) && Acceptable(env, s)) ==>
        active == old(active) && |done| == |old(done)| + 1 && done[..|old(done)|] == old(done) &&
        done[|old(done)|].sub == s &&
        (done[|old(done)|].ending.Unavailable? <==> !Free(s.slot, |states|, old(active)))
      ensures states == if Free(s.slot, |states|, old(active)) then old(states)[s.slot := None] else old(states)
      ensures old(done) <= done && (Free(s.slot, |states|, old(active)) ==> Extends(old(done), done))
      ensures IdleStates(states) <= old(IdleStates(states))
      ensures forall o | o in Objects() :: o in old(Objects()) || fresh(o)
    {
      hide Owing, Free, Acceptable, Owned, Sessions, ActiveOk, DecodeSession.Footprint, Accounted, RunsOn;
      Receive(s);
      if !Free(s.slot, |states|, active) {
        AccountedBusy(states, active, done, Closed(s, [], Unavailable));
        Close(Closed(s, [], Unavailable), []);
        return;
      }
      ghost var before := states;
      FreeSlot(s.slot, active);
      var r := Launch(s);
      match r {
        case Err(e) =>
          AccountedRefused(before, active, done, Closed(s, [], Refused(e)));
          Close(Closed(s, [], Refused(e)), []);
        case Ok(a) =>
          AccountedStarted(before, active, done, a);
          Enlist(a);
      }
    }

    lemma FreeSlot(slot: nat, active: seq<Active>)
      requires Free(slot, |states|, active)
      ensures slot < |states|
    {
    }

    method Receive(s: Submit)
      requires Owing(multiset{})
      modifies this`received
      ensures Owing(multiset{s}) && received == old(received) + [s]
    {
      hide Placed, Separated, ActivesOk, ActiveOk, IdleOk, CacheOk, Answereds, Opens, DoneOk, Apart;
      received := received + [s];
    }

    /** Take the slot's idle state and start a session on it. */
    method Launch(s: Submit) returns (r: Result<Active, StartError>)
      requires Owing(multiset{s}) && Free(s.slot, |states|, active)
      modifies this`states, this`held, IdleStates(states), cache
      ensures Owing(multiset{s}) && states == old(states)[s.slot := None] && (r.Ok? <==> Acceptable(env, s))
      ensures r.Ok? ==> ActiveOk(env, r.value, gone) && r.value.sub == s && RunsOn(r.value.session, old(states)[s.slot])
      ensures r.Ok? ==> r.value.session.cache == cache && r.value.session.Footprint() !! Objects() + {cache, this}
      ensures r.Ok? ==> forall o | o in r.value.session.Footprint() :: o in old(Objects()) || fresh(o)
      ensures Objects() <= old(Objects()) && IdleStates(states) <= old(IdleStates(states))
    {
      hide Owing, Acceptable, ActiveOk, Carries, Owned, Sessions, IdleStates, DecodeSession.Footprint, RunsOn;
      var given := TakeIdle(s.slot, multiset{s});
      r := Begin(s, given);
    }

    /** Start a session on a state the engine no longer holds. */
    method Begin(s: Submit, given: Idle) returns (r: Result<Active, StartError>)
      requires Owing(multiset{s}) && cache !in Owned(Sessions(active))
      requires given.Some? ==> Carries(given.value.state, given.value.fed) && given.value.state !in Objects() + {this}
      modifies if given.Some? then {given.value.state} else {}, cache
      ensures Owing(multiset{s}) && (r.Ok? <==> Acceptable(env, s))
      ensures r.Ok? ==> ActiveOk(env, r.value, gone) && r.value.sub == s && r.value.session.cache == cache
      ensures r.Ok? ==> RunsOn(r.value.session, given)
      ensures r.Ok? ==> r.value.session.Footprint() !! Objects() + {cache, this}
      ensures r.Ok? ==> forall o | o in r.value.session.Footprint() :: fresh(o) || (given.Some? && o == given.value.state)
    {
      hide Placed, Separated, ActivesOk, ActiveOk, IdleOk, CacheOk, Answereds, Opens, DoneOk, Acceptable, Carries,
           Apart, RunsOn;
      r := StartApart(env, s, given, recurrent, shape, cache, prefixCaching, gone, Objects() + {this});
    }

    /** The slot's state leaves it, and its tokens are no longer published. */
    method TakeIdle(slot: nat, ghost owed: multiset<Submit>) returns (given: Idle)
      requires Owing(owed) && slot < |states|
      modifies this`states, this`held
      ensures Owing(owed) && states == old(states)[slot := None] && given == old(states)[slot]
      ensures given.Some? ==> Carries(given.value.state, given.value.fed) && given.value.state !in Objects() + {this}
      ensures (given.Some? ==> given.value.state in old(IdleStates(states))) && cache !in Owned(Sessions(active))
      ensures Objects() <= old(Objects()) && IdleStates(states) <= old(IdleStates(states))
    {
      hide Placed, Separated, ActivesOk, ActiveOk, IdleOk, CacheOk, Answereds, Opens, DoneOk, Carries, Apart;
      PlacedTaken(states, held, active, cache, slot);
      assert this !in IdleStates(states[slot := None]) && this !in Owned(Sessions(active));
      given := states[slot];
      held, states := held[slot := []], states[slot := None];
    }

    // ----- one round -------------------------------------------------------------

    /** These clients are gone from now on. */
    ghost method Lose(ids: set<nat>, work: seq<nat>)
      requires Valid() && Works(active, work)
      modifies this`gone
      ensures Valid() && Works(active, work) && gone == old(gone) + ids
    {
      hide Placed, Separated, ActivesOk, ActiveOk, IdleOk, CacheOk, Answereds, Opens, DoneOk, Apart, Works, Accounted;
      ghost var more := gone + ids;
      forall d | d in done ensures DoneOk(env, d, more) {
        DoneStays(env, d, gone, more);
      }
      ActivesStay(env, active, gone, more);
      gone := more;
    }

    /** Cancel the sessions whose client asked for it. */
    method CancelAll(asked: set<nat>, ghost work: seq<nat>) returns (ghost less: seq<nat>)
      requires Valid() && Works(active, work)
      modifies this`gone, Owned(Sessions(active))
      ensures Valid() && Works(active, less) && gone == old(gone) + asked && active == old(active)
      ensures states == old(states) && done == old(done) && received == old(received)
      ensures |less| == |work| && forall k | 0 <= k < |less| :: less[k] <= work[k]
      ensures forall k | 0 <= k < |active| ::
        active[k].session.finish == Stopped(active[k].sub.id in asked, old(active[k].session.finish))
    {
      hide Owing, Works, Sessions, Accounted;
      Lose(asked, work);
      less := work;
      for i := 0 to |active|
        invariant Valid() && Works(active, less) && gone == old(gone) + asked && active == old(active)
        invariant states == old(states) && done == old(done) && received == old(received)
        invariant |less| == |work| && forall k | 0 <= k < |less| :: less[k] <= work[k]
        invariant forall k | 0 <= k < |active| ::
          active[k].session.finish == Stopped(k < i && active[k].sub.id in asked, old(active[k].session.finish))
      {
        if active[i].sub.id in asked {
          InOwned(active, i);
          less := CancelOne(i, less);
        }
      }
    }

    method CancelOne(i: nat, ghost work: seq<nat>) returns (ghost less: seq<nat>)
      requires Valid() && Works(active, work) && i < |active| && active[i].sub.id in gone
      modifies active[i].session
      ensures Valid() && Works(active, less) && active == old(active) && gone == old(gone)
      ensures states == old(states) && done == old(done) && received == old(received)
      ensures |less| == |work| && forall k | 0 <= k < |less| :: less[k] <= work[k]
      ensures forall k | 0 <= k < |active| ::
        active[k].session.finish == Stopped(k == i, old(active[k].session.finish))
    {
      hide Placed, Separated, ActivesOk, IdleOk, CacheOk, Answereds, Opens, DoneOk, Works, Apart, Accounted;
      SeparatedSessions(states, active, cache);
      Distinct(states, active, cache, i);
      InOwned(active, i);
      less := CancelAt(env, states, active, cache, i, gone, work);
    }

    /** One step over the active sessions; prefill is not held back while no
        session is decoding. */
    method StepAll(ghost work: seq<nat>)
      returns (ghost less: seq<nat>, ghost takes: seq<nat>, ghost was: seq<Before>, ghost forwarded: bool)
      requires Valid() && Works(active, work)
      modifies Owned(Sessions(active)), cache
      ensures Valid() && Works(active, less) && active == old(active) && gone == old(gone)
      ensures states == old(states) && done == old(done) && received == old(received)
      ensures |less| == |work| && forall k | 0 <= k < |less| :: less[k] <= work[k]
      ensures Sum(less) < Sum(work) || Spent(active)
      ensures var room := if old(SomeoneDecodes(active)) || chunk < budget then budget else chunk;
        Shared(Sessions(active), old(Needs(Sessions(active))), AtLeastOne(chunk), room, takes, was)
      ensures AllStepped(active, takes, was, forwarded) &&
        forall k | 0 <= k < |active| :: was[k].fed == old(active[k].session.fed)
    {
      hide Placed, Separated, ActivesOk, IdleOk, CacheOk, Answereds, Opens, DoneOk, Works, Apart, Accounted, Shared,
           AllStepped;
      var decoding := exists k | 0 <= k < |active| :: active[k].session.finish.None? && active[k].session.decoding;
      var room := if decoding || chunk < budget then budget else chunk;
      SeparatedSessions(states, active, cache);
      less, takes, was, forwarded := StepActives(env, active, cache, AtLeastOne(chunk), room, gone, work);
    }

    /** Send `Done` to a finished session; its state goes back to its slot. */
    method Retire(i: nat, ghost work: seq<nat>)
      requires Valid() && Works(active, work) && i < |active| && active[i].session.finish.Some?
      requires active[i].sent == active[i].session.streamed
      modifies this`active, this`states, this`held, this`done
      ensures Valid() && active == Omit(old(active), i) && old(active)[i].sub.slot < |old(states)|
      ensures var a := old(active)[i];
        states == old(states)[a.sub.slot := Back(a.session)] &&
        done == old(done) + [Closed(a.sub, a.sent, EndingOf(a.session))]
      ensures Objects() <= old(Objects()) && Owned(Sessions(active)) <= old(Owned(Sessions(active)))
      ensures |work| == |old(active)| && Works(active, Omit(work, i)) && Extends(old(done), done)
    {
      hide Owing, Works, Owned, Sessions, DoneOk, Accounted;
      var a := active[i];
      Vacate(i, work);
      AccountedEnded(old(states), old(active), done, i, Closed(a.sub, a.sent, EndingOf(a.session)), Back(a.session));
      Close(Closed(a.sub, a.sent, EndingOf(a.session)), Omit(work, i));
    }

    method Vacate(i: nat, ghost work: seq<nat>)
      requires Valid() && Works(active, work) && i < |active| && active[i].session.finish.Some?
      requires active[i].sent == active[i].session.streamed
      modifies this`active, this`states, this`held
      ensures Owing(multiset{old(active)[i].sub}) && active == Omit(old(active), i) && old(active)[i].sub.slot < |old(states)|
      ensures states == old(states)[old(active)[i].sub.slot := Back(old(active)[i].session)]
      ensures Objects() <= old(Objects()) && Owned(Sessions(active)) <= old(Owned(Sessions(active)))
      ensures |work| == |old(active)| && Works(active, Omit(work, i))
      ensures var a := old(active)[i];
        DoneOk(env, Closed(a.sub, a.sent, EndingOf(a.session)), gone)
    {
      hide Placed, Separated, ActivesOk, ActiveOk, IdleOk, CacheOk, Answereds, Opens, DoneOk, Owned, Sessions, Carries, Omit,
           Works, DecodeSession.Footprint, Accounted;
      var a := active[i];
      FinishedOk(env, active, i, gone);
      WorksOmit(active, work, i);
      var slot, given := a.sub.slot, None;
      if !a.session.poisoned {
        given := Some(Handed(a.session.state, a.session.fed));
      }
      Leaves(states, held, active, cache, i, given);
      IdlePut(states, slot, given);
      if given.Some? {
        held := held[slot := given.value.fed];
      }
      active, states := Omit(active, i), states[slot := given];
    }

    method StreamOne(i: nat, hungUp: set<nat>, ghost work: seq<nat>) returns (ghost less: seq<nat>)
      requires Valid() && Works(active, work) && i < |active| && hungUp <= gone
      modifies this`active, active[i].session
      ensures Valid() && Sessions(active) == old(Sessions(active)) && Works(active, less) && gone == old(gone)
      ensures |less| == |work| && forall k | 0 <= k < |less| :: less[k] <= work[k]
      ensures active == old(active)[i := active[i]] && active[i].session == old(active)[i].session
      ensures active[i].sub == old(active)[i].sub && active[i].sent == active[i].session.streamed
      ensures Met(active[i], old(FateOf(active[i], hungUp))) && states == old(states) && done == old(done)
      ensures forall k | 0 <= k < |active| && k != i :: active[k].session != active[i].session
    {
      hide Placed, Separated, ActivesOk, IdleOk, CacheOk, Answereds, Opens, DoneOk, Works, Apart, Accounted, Met, FateOf,
           Owned;
      SeparatedSessions(states, active, cache);
      Distinct(states, active, cache, i);
      InOwned(active, i);
      var after: seq<Active>;
      label before:
      after, less := StreamAt(env, states, active, cache, i, hungUp, gone, work);
      SameShape(states, held, active, cache, i, after[i]);
      AccountedSame(states, active, done, i, after[i]);
      active := after;
    }

    method StreamNext(i: nat, hungUp: set<nat>, ghost work: seq<nat>, ghost fates: seq<Fate>)
      returns (ghost less: seq<nat>, next: nat)
      requires Valid() && Works(active, work) && i < |active| && Live(active, i) && hungUp <= gone
      requires fates != [] && Fated(active[i..], hungUp, fates)
      modifies this`active, this`states, this`held, this`done, Owned(Sessions(active))
      ensures Valid() && Works(active, less) && Objects() <= old(Objects()) && gone == old(gone) && received == old(received)
      ensures Owned(Sessions(active)) <= old(Owned(Sessions(active)))
      ensures Sum(less) + |less| <= Sum(work) + |work| && Extends(old(done), done)
      ensures i <= next <= |active| && Live(active, next) && active[..next] == old(active)[..i] + Kept(fates[0])
      ensures done == old(done) + Told(fates[0]) && states == Returned(old(states), fates[0])
      ensures Fated(active[next..], hungUp, fates[1..])
    {
      hide Owing, Works, Sum, Owned, Sessions, Accounted, FateOf;
      InOwned(active, i);
      assert active[i..][0] == active[i];
      FatedRest(active, i, hungUp, fates);
      less := StreamOne(i, hungUp, work);
      ghost var mid := active;
      assert forall k | i < k < |mid| :: fates[k - i] == FateOf(mid[k], hungUp);
      SumMonotone(less, work);
      next := i + 1;
      if active[i].session.finish.Some? {
        Retire(i, less);
        SumOmit(less, i);
        less := Omit(less, i);
        next := i;
      }
      RestFated(mid, active, i, next, hungUp, fates);
    }

    /** Send every session's deltas; retire the finished ones. */
    method StreamAll(hungUp: set<nat>, ghost work: seq<nat>, ghost fates: seq<Fate>) returns (ghost less: seq<nat>)
      requires Valid() && Works(active, work) && Fated(active, hungUp, fates)
      modifies this`active, this`states, this`held, this`done, this`gone, Owned(Sessions(active))
      ensures Valid() && Works(active, less) && |states| == |old(states)| && Objects() <= old(Objects())
      ensures active == Staying(fates) && done == old(done) + Closings(fates) && states == Vacated(old(states), fates)
      ensures Sum(less) + |less| <= Sum(work) + |work| && Extends(old(done), done) && gone == old(gone) + hungUp
      ensures Live(active, |active|) && (old(Spent(active)) ==> active == []) && received == old(received)
    {
      hide Owing, Sum, Works, Owned, Sessions, Accounted, FateOf, Fated, Staying, Closings, Vacated, Kept, Told, Returned;
      Lose(hungUp, work);
      less := work;
      NoFates(states);
      SpentDepart(active, hungUp, fates);
      assert active[0..] == active && fates[0..] == fates;
      var i := 0;
      ghost var p := 0;
      while i < |active|
        invariant i <= |active| && Valid() && Works(active, less)
        invariant Objects() <= old(Objects()) && Owned(Sessions(active)) <= old(Owned(Sessions(active)))
        invariant Sum(less) + |less| <= Sum(work) + |work| && Extends(old(done), done) && gone == old(gone) + hungUp
        invariant Live(active, i) && received == old(received)
        invariant p <= |fates| && active[..i] == Staying(fates[..p]) && done == old(done) + Closings(fates[..p])
        invariant states == Vacated(old(states), fates[..p]) && Fated(active[i..], hungUp, fates[p..])
        decreases |fates| - p
      {
        SameLength(active[i..], hungUp, fates[p..]);
        FateNext(old(states), fates, p);
        less, i := StreamNext(i, hungUp, less, fates[p..]);
        p := p + 1;
      }
      SameLength(active[i..], hungUp, fates[p..]);
      assert fates[..p] == fates && active[..i] == active;
    }

    /** One round: cancellations, a step, the deltas and the finished sessions. */
    method Round(asked: set<nat>, hungUp: set<nat>, ghost work: seq<nat>) returns (ghost less: seq<nat>)
      requires Valid() && Works(active, work) && active != []
      modifies this`active, this`states, this`held, this`done, this`gone, Owned(Sessions(active)), cache
      ensures Valid() && Works(active, less) && |states| == |old(states)| && Objects() <= old(Objects())
      ensures Sum(less) + |less| < Sum(work) + |work|
      ensures Extends(old(done), done) && gone == old(gone) + asked + hungUp && received == old(received)
    {
      hide Owing, Sum, Works, Owned, Sessions, Accounted, FateOf;
      NoWork(active, work);
      less := CancelAll(asked, work);
      SumMonotone(less, work);
      ghost var mid, takes, was, forwarded := StepAll(less);
      SumMonotone(mid, less);
      ghost var fates := FatesOf(active, hungUp);
      less := StreamAll(hungUp, mid, fates);
      NoWork(active, less);
    }

    // ----- serving ---------------------------------------------------------------

    lemma SettledIsFree(slot: nat)
      requires Valid() && Quiet(received, done, slot) && slot < |states|
      ensures Free(slot, |states|, active)
    {
      forall k | 0 <= k < |active| ensures active[k].sub.slot != slot {
        assert active[k].sub == OpenSubs(active)[k];
        assert active[k].sub in Opens(active);
      }
    }

    /** Poll the clients once and admit what came. */
    method Poll(clients: Clients, t: nat) returns (came: Option<Submit>)
      requires Valid()
      modifies this`states, this`held, this`active, this`done, this`received, IdleStates(states), cache
      ensures Valid() && |states| == |old(states)| && came == clients(t, old(received), old(done))
      ensures received == old(received) + Came(came) && old(done) <= done
      ensures Disciplined(clients, |states|) ==> Extends(old(done), done)
      ensures forall o | o in Objects() :: o in old(Objects()) || fresh(o)
      ensures IdleStates(states) <= old(IdleStates(states))
    {
      hide Owing, Owned, Sessions, Free, Acceptable, Extends, IdleStates, Quiet, Accounted;
      came := clients(t, received, done);
      ExtendsOn(done, done, done);
      if came.Some? {
        if Disciplined(clients, |states|) {
          SettledIsFree(came.value.slot);
        }
        Admit(came.value);
      }
    }

    /** Admit what the clients send until nothing is waiting. */
    method AdmitAll(clients: Clients, last: nat, from: nat, ghost polls: seq<Polled>, ghost first: seq<Submit>)
      returns (t: nat, ghost more: seq<Polled>)
      requires Valid() && |polls| == from < last && Heard(clients, polls, first, received, done)
      modifies this`states, this`held, this`active, this`done, this`received, IdleStates(states), cache
      ensures Valid() && |states| == |old(states)| && from < t == |more| <= last && old(done) <= done
      ensures Heard(clients, more, first, received, done)
      ensures Disciplined(clients, |states|) ==> Extends(old(done), done)
      ensures forall o | o in Objects() :: o in old(Objects()) || fresh(o)
    {
      hide Owing, Owned, Sessions, Free, Acceptable, Extends, Heard, Disciplined, Accounted;
      ExtendsOn(done, done, done);
      more := polls;
      t := from;
      var waiting := true;
      while waiting && t < last
        invariant Valid() && |states| == |old(states)| && from <= t == |more| <= last
        invariant (waiting || from < t) && old(done) <= done
        invariant Heard(clients, more, first, received, done)
        invariant Disciplined(clients, |states|) ==> Extends(old(done), done)
        invariant forall o | o in Objects() :: o in old(Objects()) || fresh(o)
        invariant IdleStates(states) <= old(IdleStates(states))
        decreases last - t
      {
        ghost var received0, done0 := received, done;
        var came := Poll(clients, t);
        ExtendsOn(old(done), done0, done);
        HeardMore(clients, more, first, received0, done0, came, done);
        more := more + [Polled(|done0|, came)];
        t, waiting := t + 1, came.Some?;
      }
    }

    /** Serve whatever the clients send in `last` polls, until the last
        submission is answered. */
    method Serve(clients: Clients, last: nat, asked: nat -> set<nat>, hungUp: nat -> set<nat>)
      returns (ghost polls: seq<Polled>)
      requires Valid()
      modifies this, Objects(), cache
      ensures Valid() && active == [] && |states| == |old(states)|
      ensures forall i: nat | i < |states| :: states[i].None? <==> Emptied(LastUse(done, i))
      ensures |polls| == last && Heard(clients, polls, old(received), received, done)
      ensures Answereds(done) == multiset(received) && old(done) <= done
      ensures Disciplined(clients, |states|) ==> Extends(old(done), done)
      ensures forall id | id in gone :: id in old(gone) || WentAway(asked, hungUp, id)
      ensures Disciplined(clients, |states|) && ForwardsSure(env) && NeverFails(env) ==>
        forall k | |old(done)| <= k < |done| ::
          done[k].sub.id in gone || !Acceptable(env, done[k].sub) || AsAlone(env, done[k])
    {
      hide AsAlone, Acceptable, ForwardsSure, NeverFails, Owing, Sum, Works, Owned, Sessions, Answereds, Opens, Heard,
           Disciplined, Extends, Left, WentAway, Accounted, Emptied;
      HeardNothing(clients, received, done);
      polls := [];
      ExtendsOn(done, done, done);
      var round := 0;
      ghost var work := MeasureAll(active);
      var t := 0;
      while t < last || active != []
        invariant Valid() && Works(active, work) && |states| == |old(states)| && t == |polls| <= last
        invariant forall o | o in Objects() :: o in old(Objects()) || fresh(o)
        invariant Heard(clients, polls, old(received), received, done) && old(done) <= done
        invariant Disciplined(clients, |states|) ==> Extends(old(done), done)
        invariant forall id | id in gone :: id in old(gone) || WentAway(asked, hungUp, id)
        decreases last - t, Sum(work) + |work|
      {
        ghost var done0 := done;
        if t < last {
          t, polls := AdmitAll(clients, last, t, polls, old(received));
          work := MeasureAll(active);
        } else {
          ExtendsOn(done, done, done);
        }
        ghost var done1 := done;
        ExtendsOn(old(done), done0, done1);
        if active != [] {
          work := Round(asked(round), hungUp(round), work);
          Gone(asked, hungUp, round);
          round := round + 1;
        } else {
          ExtendsOn(done, done, done);
        }
        ExtendsOn(old(done), done1, done);
        HeardStill(clients, polls, old(received), received, done1, done);
      }
      AllAnswered();
      AllBack();
      if Disciplined(clients, |states|) && ForwardsSure(env) && NeverFails(env) {
        AllServed(old(done));
      }
    }

    lemma AllServed(before: seq<Closed>)
      requires Valid() && Extends(before, done) && ForwardsSure(env) && NeverFails(env)
      ensures forall k | |before| <= k < |done| ::
        done[k].sub.id in gone || !Acceptable(env, done[k].sub) || AsAlone(env, done[k])
    {
      hide Placed, Separated, ActivesOk, IdleOk, CacheOk, Answereds, Opens, DoneOk, AsAlone, Acceptable, ForwardsSure,
           NeverFails;
      forall k | |before| <= k < |done|
        ensures done[k].sub.id in gone || !Acceptable(env, done[k].sub) || AsAlone(env, done[k])
      {
        assert DoneOk(env, done[k], gone);
        if done[k].sub.id !in gone && Acceptable(env, done[k].sub) {
          Served(env, done[k], gone);
        }
      }
    }

    lemma AllBack()
      requires Valid() && active == []
      ensures forall i: nat | i < |states| :: states[i].None? <==> Emptied(LastUse(done, i))
    {
      hide Owing, Emptied, LastUse;
      assert forall i: nat | i < |states| :: Free(i, |states|, active);
    }

    lemma AllAnswered()
      requires Valid() && active == []
      ensures Answereds(done) == multiset(received)
    {
    }

  }

  lemma MeasureAll(active: seq<Active>) returns (work: seq<nat>)
    ensures Works(active, work)
  {
    work := [];
    for i := 0 to |active|
      invariant |work| == i && forall k | 0 <= k < i :: Left(active[k].session) == work[k]
    {
      work := work + [Left(active[i].session)];
    }
  }

  /** The first `n` sessions still run. */
  ghost predicate Live(active: seq<Active>, n: nat)
    reads set k | 0 <= k < |active| :: active[k].session
  {
    n <= |active| && forall k | 0 <= k < n :: active[k].session.finish.None?
  }

  /** No session runs any more. */
  ghost predicate Spent(active: seq<Active>)
    reads set k | 0 <= k < |active| :: active[k].session
  {
    forall k | 0 <= k < |active| :: active[k].session.finish.Some?
  }

  lemma {:induction false} WorksOmit(active: seq<Active>, work: seq<nat>, i: nat)
    requires Works(active, work) && i < |active|
    ensures |work| == |active| && Works(Omit(active, i), Omit(work, i))
  {
    hide Left;
  }

  lemma {:induction false} SumOmit(work: seq<nat>, i: nat)
    requires i < |work|
    ensures Sum(Omit(work, i)) + work[i] == Sum(work)
  {
    if i > 0 {
      SumOmit(work[1..], i - 1);
      assert Omit(work, i)[1..] == Omit(work[1..], i - 1);
    } else {
      assert Omit(work, 0) == work[1..];
    }
  }

  lemma DoneStays(env: Env, d: Closed, gone: set<nat>, after: set<nat>)
    requires DoneOk(env, d, gone) && gone <= after
    ensures DoneOk(env, d, after)
  {
    hide Serves, Solo;
  }

  lemma {:induction false} ActivesStay(env: Env, active: seq<Active>, gone: set<nat>, after: set<nat>)
    requires ActivesOk(env, active, gone) && gone <= after
    ensures ActivesOk(env, active, after)
  {
    hide Serves, Solo, DecodeSession.Valid;
  }

  lemma SeparatedSessions(states: seq<Idle>, active: seq<Active>, cache: PromptCache?)
    requires Separated(states, active, cache)
    ensures Apart(Sessions(active), cache) && Owned(Sessions(active)) + {cache} !! IdleStates(states)
  {
    hide Apart, DecodeSession.Footprint;
  }

  /** Some session is past its prompt. */
  ghost predicate SomeoneDecodes(active: seq<Active>)
    reads set k | 0 <= k < |active| :: active[k].session
  {
    exists k :: 0 <= k < |active| && active[k].session.finish.None? && active[k].session.decoding
  }

  /** Every session did its part of the step. */
  ghost predicate AllStepped(active: seq<Active>, takes: seq<nat>, was: seq<Before>, ok: bool)
    reads Owned(Sessions(active))
  {
    |takes| == |was| == |active| && forall k | 0 <= k < |active| :: Stepped(active[k].session, takes[k], was[k], ok)
  }

  /** What is known of a session when a step begins. */
  ghost predicate WasOk(env: Env, a: Active, was: Before, gone: set<nat>) {
    Serves(env, a.sub, a.session.q) && was.taken <= |was.streamed| && a.sent == was.streamed[..was.taken] &&
    (was.finish.Some? && was.result.None? && !was.poisoned ==> a.sub.id in gone) &&
    (was.poisoned ==> !ForwardsSure(env) || Misshapen(a.session.q) || Solo(a.session.q) == RequestFails)
  }

  lemma AllValid(env: Env, active: seq<Active>, gone: set<nat>)
    requires ActivesOk(env, active, gone)
    ensures forall k | 0 <= k < |active| :: Sessions(active)[k].Valid()
  {
  }

  lemma WasActive(env: Env, a: Active, was: Before, gone: set<nat>)
    requires ActiveOk(env, a, gone) && Untouched(a.session, was)
    ensures WasOk(env, a, was, gone) && Left(a.session) == was.remaining && a.session.q.env == env
  {
    hide Solo, SoloRun, Misshapen, ForwardsSure, Serves, ModelState.Holds, Remaining, DecodeSession.Valid;
    EnvOf(env, a.sub, a.session.q);
  }

  lemma StaysActive(env: Env, a: Active, take: nat, was: Before, ok: bool, gone: set<nat>)
    requires WasOk(env, a, was, gone) && Stepped(a.session, take, was, ok) && (!ok ==> !ForwardsSure(env))
    ensures ActiveOk(env, a, gone) && Left(a.session) <= was.remaining
    ensures (take > 0 ==> Left(a.session) < was.remaining) && (was.finish.Some? ==> a.session.finish.Some?)
  {
    hide Solo, SoloRun, Misshapen, ForwardsSure, ModelState.Holds, Remaining, NeverBreaks, Normalized;
  }

  lemma StayActive(env: Env, active: seq<Active>, takes: seq<nat>, was: seq<Before>, ok: bool, gone: set<nat>, work: seq<nat>)
    returns (less: seq<nat>)
    requires |takes| == |was| == |work| == |active|
    requires forall k | 0 <= k < |active| :: WasOk(env, active[k], was[k], gone) && was[k].remaining == work[k]
    requires forall k | 0 <= k < |active| :: Stepped(active[k].session, takes[k], was[k], ok)
    requires !ok ==> !ForwardsSure(env)
    ensures ActivesOk(env, active, gone) && Works(active, less) && |less| == |work|
    ensures forall k | 0 <= k < |active| :: less[k] <= work[k] && (takes[k] > 0 ==> less[k] < work[k])
    ensures forall k | 0 <= k < |active| :: was[k].finish.Some? ==> active[k].session.finish.Some?
  {
    hide WasOk, Stepped, ActiveOk, Left, ForwardsSure;
    less := [];
    for i := 0 to |active|
      invariant |less| == i
      invariant forall k | 0 <= k < i :: ActiveOk(env, active[k], gone) && Left(active[k].session) == less[k]
      invariant forall k | 0 <= k < i :: less[k] <= work[k] && (takes[k] > 0 ==> less[k] < work[k])
      invariant forall k | 0 <= k < i :: was[k].finish.Some? ==> active[k].session.finish.Some?
    {
      StaysActive(env, active[i], takes[i], was[i], ok, gone);
      less := less + [Left(active[i].session)];
    }
  }

  method StepActives(env: Env, active: seq<Active>, cache: PromptCache?, chunk: nat, budget: nat, ghost gone: set<nat>,
                     ghost work: seq<nat>)
    returns (ghost less: seq<nat>, ghost takes: seq<nat>, ghost was: seq<Before>, ghost forwarded: bool)
    requires Apart(Sessions(active), cache) && ActivesOk(env, active, gone) && CacheOk(cache) && Works(active, work)
    requires chunk > 0
    modifies Owned(Sessions(active)), cache
    ensures ActivesOk(env, active, gone) && CacheOk(cache) && Works(active, less)
    ensures |less| == |work| && forall k | 0 <= k < |less| :: less[k] <= work[k]
    ensures Sum(less) < Sum(work) || forall k | 0 <= k < |active| :: active[k].session.finish.Some?
    ensures Shared(Sessions(active), old(Needs(Sessions(active))), chunk, budget, takes, was)
    ensures AllStepped(active, takes, was, forwarded) &&
      forall k | 0 <= k < |active| :: was[k].fed == old(active[k].session.fed)
  {
    hide Apart, ActivesOk, Works, CacheOk, Takes, Sum, Shared, AllStepped;
    ghost var mover := FindMover(env, active, chunk, budget, gone, work);
    less, takes, was, forwarded := StepKeeps(env, active, cache, chunk, budget, gone, work);
    if mover.Some? {
      assert less[mover.value] < work[mover.value];
      SumMonotone(less, work);
    }
  }

  lemma FindMover(env: Env, active: seq<Active>, chunk: nat, budget: nat, gone: set<nat>, work: seq<nat>)
    returns (mover: Option<nat>)
    requires ActivesOk(env, active, gone) && chunk > 0 && Works(active, work)
    ensures |work| == |active| == |Needs(Sessions(active))|
    ensures mover.Some? ==> mover.value < |active|
    ensures mover.Some? ==> Takes(Needs(Sessions(active)), chunk, budget, true)[mover.value] > 0
    ensures mover.None? ==> forall k | 0 <= k < |active| :: active[k].session.finish.Some?
  {
    hide DecodeSession.Valid, DecodeSession.Running, Takes, Serves, Left;
    mover := None;
    if i: nat :| i < |active| && active[i].session.finish.None? {
      var k := Mover(Sessions(active), chunk, budget, i);
      mover := Some(k);
    }
  }

  method StepKeeps(env: Env, active: seq<Active>, cache: PromptCache?, chunk: nat, budget: nat, ghost gone: set<nat>,
                   ghost work: seq<nat>)
    returns (ghost less: seq<nat>, ghost takes: seq<nat>, ghost was: seq<Before>, ghost forwarded: bool)
    requires Apart(Sessions(active), cache) && ActivesOk(env, active, gone) && CacheOk(cache) && Works(active, work)
    modifies Owned(Sessions(active)), cache
    ensures ActivesOk(env, active, gone) && CacheOk(cache) && Works(active, less)
    ensures |less| == |work| == |active| == |takes| && takes == Takes(old(Needs(Sessions(active))), chunk, budget, true)
    ensures forall k | 0 <= k < |less| :: less[k] <= work[k] && (takes[k] > 0 ==> less[k] < work[k])
    ensures forall k | 0 <= k < |active| :: old(active[k].session.finish.Some?) ==> active[k].session.finish.Some?
    ensures Shared(Sessions(active), old(Needs(Sessions(active))), chunk, budget, takes, was)
    ensures AllStepped(active, takes, was, forwarded) &&
      forall k | 0 <= k < |active| :: was[k].fed == old(active[k].session.fed)
  {
    hide Apart, ActivesOk, Works, WasOk, Stepped, Planned, CacheOk, Takes, SomeoneFails, ForwardsSure, Shared;
    takes, was := PlanActives(env, active, chunk, budget, gone, work);
    var total;
    total, forwarded := BatchSteps.Step(Sessions(active), cache, chunk, budget, takes, was);
    if !forwarded {
      NotSureOf(env, active, takes, was);
    }
    less := StayActive(env, active, takes, was, forwarded, gone, work);
  }

  lemma NotSureOf(env: Env, active: seq<Active>, takes: seq<nat>, was: seq<Before>)
    requires |takes| == |was| == |active| && SomeoneFails(Sessions(active), takes, was)
    requires forall k | 0 <= k < |active| :: active[k].session.q.env == env
    ensures !ForwardsSure(env)
  {
    NotSure(env, Sessions(active), takes, was);
  }

  lemma PlanActives(env: Env, active: seq<Active>, chunk: nat, budget: nat, gone: set<nat>, work: seq<nat>)
    returns (takes: seq<nat>, was: seq<Before>)
    requires ActivesOk(env, active, gone) && Works(active, work)
    ensures Planned(Sessions(active), chunk, budget, takes, was)
    ensures |takes| == |was| == |work| == |active| && takes == Takes(Needs(Sessions(active)), chunk, budget, true)
    ensures forall k | 0 <= k < |active| :: WasOk(env, active[k], was[k], gone) && was[k].remaining == work[k]
    ensures forall k | 0 <= k < |active| :: active[k].session.finish == was[k].finish && active[k].session.q.env == env
    ensures forall k | 0 <= k < |active| :: active[k].session.fed == was[k].fed
  {
    hide ActiveOk, WasOk, Left, Chosen, Planned, Takes, DecodeSession.Valid;
    AllValid(env, active, gone);
    takes, was := PlanStep(Sessions(active), chunk, budget);
    forall k | 0 <= k < |active|
      ensures WasOk(env, active[k], was[k], gone) && was[k].remaining == work[k] && active[k].session.q.env == env
    {
      WasActive(env, active[k], was[k], gone);
    }
  }
}
