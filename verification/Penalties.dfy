/** Repetition, frequency and presence penalties. The sampler keeps its tables
    from call to call: an entry counts only if its stamp is this call's. */
module Penalties {
  import opened Wrappers

  /** Call numbers are 32-bit and wrap around. */
  const GENERATIONS: nat := 0x1_0000_0000

  /** `lastN` limits the context that counts; the whole of it otherwise. */
  datatype Penalty = Penalty(repetition: real, frequency: real, presence: real, lastN: Option<nat>)

  /** A logit whose token occurs in the context, `c` times in its output part. */
  function Penalized(p: Penalty, v: real, c: nat): real {
    var w := if p.repetition == 1.0 || p.repetition <= 0.0 then v
             else if v > 0.0 then v / p.repetition
             else v * p.repetition;
    if c > 0 then w - (c as real * p.frequency + p.presence) else w
  }

  function WindowStart(p: Penalty, total: nat): (start: nat)
    ensures start <= total
  {
    total - (if p.lastN.Some? then Min(p.lastN.value, total) else total)
  }

  /** The context that counts: the last tokens of prompt and output. */
  function Recent(p: Penalty, prompt: seq<nat>, output: seq<nat>): seq<nat> {
    (prompt + output)[WindowStart(p, |prompt + output|)..]
  }

  /** The part of it that was generated. */
  function RecentOutput(p: Penalty, prompt: seq<nat>, output: seq<nat>): (r: seq<nat>)
    ensures |r| <= |Recent(p, prompt, output)|
  {
    var start := WindowStart(p, |prompt + output|);
    output[if start < |prompt| then 0 else start - |prompt|..]
  }

  function RecentPrompt(p: Penalty, prompt: seq<nat>, output: seq<nat>): seq<nat> {
    prompt[Min(WindowStart(p, |prompt + output|), |prompt|)..]
  }

  lemma RecentParts(p: Penalty, prompt: seq<nat>, output: seq<nat>)
    ensures Recent(p, prompt, output) == RecentPrompt(p, prompt, output) + RecentOutput(p, prompt, output)
  {
  }

  /** It is as long as the limit allows, and its generated part as long as both. */
  lemma WindowMeans(p: Penalty, prompt: seq<nat>, output: seq<nat>)
    ensures var all, window, out := prompt + output, Recent(p, prompt, output), RecentOutput(p, prompt, output);
      window == all[|all| - |window|..] && out == output[|output| - |out|..] &&
      |window| == (if p.lastN.Some? && p.lastN.value < |all| then p.lastN.value else |all|) &&
      |out| == if |window| < |output| then |window| else |output|
  {
  }

  /** What the tables say after the tokens `seen`, `outs` of them counted:
      exactly those within the vocabulary are stamped, each touched once. */
  ghost predicate Marked(stamp: seq<nat>, count: seq<nat>, gen: nat, vocab: nat, touched: seq<nat>, seen: seq<nat>,
                         outs: seq<nat>) {
    vocab <= |stamp| == |count| && (forall t | 0 <= t < |stamp| :: stamp[t] <= gen) &&
    (forall t | 0 <= t < vocab :: stamp[t] == gen <==> t in seen) &&
    (forall t | 0 <= t < vocab && t in seen :: count[t] == multiset(outs)[t]) &&
    (forall t | t in touched :: t < vocab && t in seen) &&
    (forall t | 0 <= t < vocab && t in seen :: t in touched) &&
    (forall i, j | 0 <= i < j < |touched| :: touched[i] != touched[j]) &&
    forall t | t in outs :: t in seen
  }

  function Zeroes(n: nat): (r: seq<nat>)
    ensures |r| == n && forall i | 0 <= i < n :: r[i] == 0
  {
    seq(n, i => 0)
  }

  /** Every token of the window is penalized once, whatever its number of
      occurrences, and no other token. */
  ghost predicate AllPenalized(p: Penalty, prompt: seq<nat>, output: seq<nat>, before: seq<real>, after: seq<real>) {
    |after| == |before| &&
    forall t: nat | t < |before| ::
      after[t] == if t in Recent(p, prompt, output)
                  then Penalized(p, before[t], multiset(RecentOutput(p, prompt, output))[t])
                  else before[t]
  }

  // ----- what a penalty does to a logit ---------------------------------------------

  /** How often the token occurs in the generated part of the window. */
  ghost function Times(p: Penalty, prompt: seq<nat>, output: seq<nat>, t: nat): nat {
    multiset(RecentOutput(p, prompt, output))[t]
  }

  /** Repetition divides a positive logit and multiplies any other; a repetition
      of one, or one that is not positive, does nothing. */
  ghost predicate Repeats(repetition: real, before: real, after: real) {
    if repetition <= 0.0 || repetition == 1.0 then after == before
    else if before > 0.0 then after * repetition == before
    else after == before * repetition
  }

  /** The logit without what frequency and presence took away. */
  function Restored(p: Penalty, v: real, c: nat): real {
    if c == 0 then v else v + c as real * p.frequency + p.presence
  }

  /** What every logit became: off the window nothing changed; on it, what
      frequency and presence took away aside, repetition did. */
  ghost predicate Lawful(p: Penalty, prompt: seq<nat>, output: seq<nat>, before: seq<real>, after: seq<real>) {
    |after| == |before| &&
    forall t: nat | t < |before| ::
      if t !in Recent(p, prompt, output) then after[t] == before[t]
      else Repeats(p.repetition, before[t], Restored(p, after[t], Times(p, prompt, output, t)))
  }

  lemma Divided(v: real, r: real)
    requires r > 0.0
    ensures (v / r) * r == v
  {
  }

  lemma PenalizedRepeats(p: Penalty, v: real, c: nat)
    ensures Repeats(p.repetition, v, Restored(p, Penalized(p, v, c), c))
  {
    if p.repetition > 0.0 {
      Divided(v, p.repetition);
    }
  }

  lemma AllLawful(p: Penalty, prompt: seq<nat>, output: seq<nat>, before: seq<real>, after: seq<real>)
    requires AllPenalized(p, prompt, output, before, after)
    ensures Lawful(p, prompt, output, before, after)
  {
    hide Recent, RecentOutput, Penalized, Repeats, Restored;
    forall t: nat | t < |before| && t in Recent(p, prompt, output)
      ensures Repeats(p.repetition, before[t], Restored(p, after[t], Times(p, prompt, output, t)))
    {
      PenalizedRepeats(p, before[t], Times(p, prompt, output, t));
    }
  }

  lemma Sign(x: real, d: real)
    requires d > 0.0
    ensures (x > 0.0 ==> x * d > 0.0) && (x == 0.0 ==> x * d == 0.0) && (x < 0.0 ==> x * d < 0.0)
  {
  }

  /** A factor above one moves away from zero. */
  lemma Grows(x: real, y: real, r: real)
    requires r > 1.0 && y == x * r
    ensures (x > 0.0 ==> y > x) && (x == 0.0 ==> y == x) && (x < 0.0 ==> y < x)
  {
    Sign(x, r - 1.0);
    assert y == x + x * (r - 1.0);
  }

  lemma Smaller(before: real, after: real, r: real)
    requires r >= 1.0 && Repeats(r, before, after)
    ensures after <= before && (r > 1.0 && before != 0.0 ==> after < before)
  {
    if r > 1.0 {
      if before > 0.0 {
        Grows(after, before, r);
      } else {
        Grows(before, after, r);
      }
    }
  }

  lemma RestoredIsMore(p: Penalty, v: real, c: nat)
    requires p.frequency >= 0.0 && p.presence >= 0.0
    ensures Restored(p, v, c) >= v
  {
    assert c as real * p.frequency >= 0.0;
  }

  /** Penalties that are meant to discourage do: no logit rises, and one in the
      window that is not zero falls if there is a repetition penalty. */
  lemma Discourages(p: Penalty, prompt: seq<nat>, output: seq<nat>, before: seq<real>, after: seq<real>, t: nat)
    requires Lawful(p, prompt, output, before, after) && t < |before|
    requires p.repetition >= 1.0 && p.frequency >= 0.0 && p.presence >= 0.0
    ensures after[t] <= before[t]
    ensures p.repetition > 1.0 && before[t] != 0.0 && t in Recent(p, prompt, output) ==> after[t] < before[t]
  {
    hide Repeats, Recent, Times, Restored;
    if t in Recent(p, prompt, output) {
      RestoredIsMore(p, after[t], Times(p, prompt, output, t));
      Smaller(before[t], Restored(p, after[t], Times(p, prompt, output, t)), p.repetition);
    }
  }

  lemma Cancel(a: real, b: real, r: real)
    requires r > 0.0 && a * r == b * r
    ensures a == b
  {
    assert (a - b) * r == 0.0;
  }

  lemma SameRepeats(r: real, v: real, a: real, b: real)
    requires Repeats(r, v, a) && Repeats(r, v, b)
    ensures a == b
  {
    if r > 0.0 && r != 1.0 && v > 0.0 {
      Cancel(a, b, r);
    }
  }

  /** The first occurrence in the output costs frequency and presence, every
      further one frequency: two outputs that differ by one occurrence. */
  lemma OneOccurrenceMore(p: Penalty, prompt: seq<nat>, output: seq<nat>, prompt': seq<nat>, output': seq<nat>,
                          before: seq<real>, after: seq<real>, after': seq<real>, t: nat)
    requires Lawful(p, prompt, output, before, after) && Lawful(p, prompt', output', before, after') && t < |before|
    requires t in Recent(p, prompt, output) && t in Recent(p, prompt', output')
    requires Times(p, prompt', output', t) == Times(p, prompt, output, t) + 1
    ensures after'[t] == after[t] - p.frequency - if Times(p, prompt, output, t) == 0 then p.presence else 0.0
  {
    hide Repeats, Recent, Times;
    var c := Times(p, prompt, output, t);
    assert (c + 1) as real * p.frequency == c as real * p.frequency + p.frequency;
    SameRepeats(p.repetition, before[t], Restored(p, after[t], c), Restored(p, after'[t], c + 1));
  }

  class Tables {
    var stamp: seq<nat>
    var count: seq<nat>
    var gen: nat

    /** No stamp is of a later call. */
    ghost predicate Valid()
      reads this
    {
      gen < GENERATIONS && |stamp| == |count| && forall t | 0 <= t < |stamp| :: stamp[t] <= gen
    }

    constructor ()
      ensures Valid()
    {
      stamp, count, gen := [], [], 0;
    }

    /** A number no entry is stamped with; when numbers wrap around, every entry
        is cleared. */
    method Begin(vocab: nat)
      requires Valid()
      modifies this
      ensures Valid() && Marked(stamp, count, gen, vocab, [], [], [])
    {
      if |stamp| < vocab {
        stamp, count := stamp + Zeroes(vocab - |stamp|), count + Zeroes(vocab - |count|);
      }
      gen := (gen + 1) % GENERATIONS;
      if gen == 0 {
        stamp := Zeroes(|stamp|);
        gen := 1;
      }
    }

    method MarkOne(t: nat, counted: bool, vocab: nat, touched0: seq<nat>, ghost seen: seq<nat>, ghost outs: seq<nat>)
      returns (touched: seq<nat>)
      requires Valid() && Marked(stamp, count, gen, vocab, touched0, seen, outs)
      modifies this`stamp, this`count
      ensures Valid()
      ensures Marked(stamp, count, gen, vocab, touched, seen + [t], if counted then outs + [t] else outs)
    {
      touched := touched0;
      if t >= vocab {
        return;
      }
      if stamp[t] != gen {
        assert t !in seen && t !in outs && t !in touched0;
        stamp, count := stamp[t := gen], count[t := 0];
        touched := touched + [t];
      }
      if counted {
        count := count[t := count[t] + 1];
      }
    }

    method Mark(part: seq<nat>, counted: bool, vocab: nat, touched0: seq<nat>, ghost seen: seq<nat>, ghost outs: seq<nat>)
      returns (touched: seq<nat>)
      requires Valid() && Marked(stamp, count, gen, vocab, touched0, seen, outs)
      modifies this`stamp, this`count
      ensures Valid()
      ensures Marked(stamp, count, gen, vocab, touched, seen + part, if counted then outs + part else outs)
    {
      hide Marked;
      touched := touched0;
      assert seen + part[..0] == seen && outs + part[..0] == outs;
      for i := 0 to |part|
        invariant Valid()
        invariant Marked(stamp, count, gen, vocab, touched, seen + part[..i], if counted then outs + part[..i] else outs)
      {
        touched := MarkOne(part[i], counted, vocab, touched, seen + part[..i], if counted then outs + part[..i] else outs);
        assert seen + part[..i + 1] == seen + part[..i] + [part[i]];
        assert outs + part[..i + 1] == outs + part[..i] + [part[i]];
      }
      assert part[..|part|] == part;
    }

    /** Penalize `logits` in place. The result depends on this call alone. */
    method Apply(p: Penalty, logits: array<real>, prompt: seq<nat>, output: seq<nat>)
      requires Valid()
      modifies this, logits
      ensures Valid() && AllPenalized(p, prompt, output, old(logits[..]), logits[..])
      ensures Lawful(p, prompt, output, old(logits[..]), logits[..])
    {
      hide Marked, AllPenalized, Recent, RecentOutput, RecentPrompt, Lawful;
      var vocab := logits.Length;
      Begin(vocab);
      var touched := Mark(RecentPrompt(p, prompt, output), false, vocab, [], [], []);
      assert [] + RecentPrompt(p, prompt, output) == RecentPrompt(p, prompt, output);
      touched := Mark(RecentOutput(p, prompt, output), true, vocab, touched, RecentPrompt(p, prompt, output), []);
      assert [] + RecentOutput(p, prompt, output) == RecentOutput(p, prompt, output);
      RecentParts(p, prompt, output);
      PenalizeTouched(p, logits, touched, Recent(p, prompt, output), RecentOutput(p, prompt, output));
      AllTouched(p, prompt, output, touched, old(logits[..]), logits[..]);
      AllLawful(p, prompt, output, old(logits[..]), logits[..]);
    }

    method PenalizeTouched(p: Penalty, logits: array<real>, touched: seq<nat>, ghost seen: seq<nat>, ghost outs: seq<nat>)
      requires Marked(stamp, count, gen, logits.Length, touched, seen, outs)
      modifies logits
      ensures TouchedOnly(p, touched, outs, old(logits[..]), logits[..])
      ensures forall t: nat | t < logits.Length :: t in touched <==> t in seen
    {
      for i := 0 to |touched|
        invariant forall t: nat | t < logits.Length && t !in touched[..i] :: logits[t] == old(logits[t])
        invariant forall t | t in touched[..i] ::
          t < logits.Length && logits[t] == Penalized(p, old(logits[t]), multiset(outs)[t])
      {
        var t := touched[i];
        assert t in touched && t !in touched[..i];
        assert touched[..i + 1] == touched[..i] + [t];
        logits[t] := Penalized(p, logits[t], count[t]);
      }
      assert touched[..|touched|] == touched;
    }
  }

  ghost predicate TouchedOnly(p: Penalty, touched: seq<nat>, outs: seq<nat>, before: seq<real>, after: seq<real>) {
    |after| == |before| &&
    forall t: nat | t < |before| ::
      after[t] == if t in touched then Penalized(p, before[t], multiset(outs)[t]) else before[t]
  }

  lemma AllTouched(p: Penalty, prompt: seq<nat>, output: seq<nat>, touched: seq<nat>, before: seq<real>, after: seq<real>)
    requires TouchedOnly(p, touched, RecentOutput(p, prompt, output), before, after)
    requires forall t: nat | t < |before| :: t in touched <==> t in Recent(p, prompt, output)
    ensures AllPenalized(p, prompt, output, before, after)
  {
    hide Recent, RecentOutput, Penalized;
  }
}
