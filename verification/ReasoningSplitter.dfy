/** Splits streamed text into visible text and the content of the first
    `<think>` block, holding back tags that are split across pushes. */
module Reasoning {
  import opened Wrappers
  import opened StopStrings

  /** The tags around a reasoning block. */
  datatype Tags = Tags(open: string, close: string)

  const THINK := Tags("<think>", "</think>")

  ghost predicate Proper(tags: Tags) {
    tags.open != "" && tags.close != "" && !Contains(tags.close, tags.open)
  }

  lemma ThinkIsProper()
    ensures Proper(THINK)
  {
  }

  // ----- newlines around tags ------------------------------------------------

  function TrimStart(w: string): (r: string)
    ensures |r| <= |w|
  {
    if w != "" && w[0] == '\n' then TrimStart(w[1..]) else w
  }

  function TrimEnd(w: string): (r: string)
    ensures |r| <= |w|
  {
    if w != "" && w[|w| - 1] == '\n' then TrimEnd(w[..|w| - 1]) else w
  }

  predicate AllNewlines(w: string) {
    forall i | 0 <= i < |w| :: w[i] == '\n'
  }

  /** `a` is all newlines and is dropped from the front of `a + b`. */
  lemma {:induction false} TrimStartUnique(a: string, b: string)
    requires AllNewlines(a) && (b != "" ==> b[0] != '\n')
    ensures TrimStart(a + b) == b
  {
    if a == "" {
      assert a + b == b;
    } else {
      assert (a + b)[1..] == a[1..] + b;
      TrimStartUnique(a[1..], b);
    }
  }

  lemma {:induction false} TrimStartParts(w: string) returns (a: string)
    ensures var b := TrimStart(w);
      w == a + b && AllNewlines(a) && (b != "" ==> b[0] != '\n')
  {
    if w != "" && w[0] == '\n' {
      var a1 := TrimStartParts(w[1..]);
      a := "\n" + a1;
      assert w == "\n" + w[1..];
    } else {
      a := "";
    }
  }

  lemma {:induction false} TrimEndUnique(a: string, b: string)
    requires AllNewlines(b) && (a != "" ==> a[|a| - 1] != '\n')
    ensures TrimEnd(a + b) == a
  {
    if b == "" {
      assert a + b == a;
    } else {
      assert (a + b)[..|a + b| - 1] == a + b[..|b| - 1];
      TrimEndUnique(a, b[..|b| - 1]);
    }
  }

  lemma {:induction false} TrimEndParts(w: string) returns (b: string)
    ensures var a := TrimEnd(w);
      w == a + b && AllNewlines(b) && (a != "" ==> a[|a| - 1] != '\n')
  {
    if w != "" && w[|w| - 1] == '\n' {
      var b1 := TrimEndParts(w[..|w| - 1]);
      b := b1 + "\n";
      assert w == w[..|w| - 1] + "\n";
    } else {
      b := "";
    }
  }

  lemma TrimEndPrefix(w: string)
    ensures w[..|TrimEnd(w)|] == TrimEnd(w)
  {
    var b := TrimEndParts(w);
  }

  /** Leading newlines can be dropped piecewise. */
  lemma TrimStartAppend(w: string, t: string)
    ensures TrimStart(w + t) == if TrimStart(w) == "" then TrimStart(t) else TrimStart(w) + t
  {
    var a := TrimStartParts(w);
    var v := TrimStart(w);
    if v == "" {
      var c := TrimStartParts(t);
      assert w + t == (a + c) + TrimStart(t);
      TrimStartUnique(a + c, TrimStart(t));
    } else {
      assert w + t == a + (v + t);
      TrimStartUnique(a, v + t);
    }
  }

  /** Text that does not end in a newline is never taken back. */
  lemma TrimEndAppend(e: string, x: string)
    requires e != "" ==> e[|e| - 1] != '\n'
    ensures TrimEnd(e + x) == e + TrimEnd(x)
  {
    hide TrimEnd;
    var b := TrimEndParts(x);
    var a := TrimEnd(x);
    assert e + x == (e + a) + b;
    if a == "" {
      assert e + a == e;
    } else {
      assert (e + a)[|e + a| - 1] == a[|a| - 1];
    }
    TrimEndUnique(e + a, b);
  }

  // ----- the automaton -------------------------------------------------------

  datatype Piece = Piece(reasoning: bool, text: string)

  datatype Split = Split(inReasoning: bool, done: bool, strip: bool, atStart: bool, pending: string)

  function Start(inReasoning: bool): Split {
    Split(inReasoning, false, inReasoning, inReasoning, "")
  }

  datatype Driven = Driven(st: Split, out: seq<Piece>)

  function NonEmptyPiece(reasoning: bool, text: string): seq<Piece> {
    if text == "" then [] else [Piece(reasoning, text)]
  }

  function Tag(tags: Tags, s: Split): string {
    if s.inReasoning then tags.close else tags.open
  }

  /** Text before a tag: inside reasoning its trailing newlines are dropped. */
  function Before(s: Split, n: nat): string
    requires n <= |s.pending|
  {
    if s.inReasoning then TrimEnd(s.pending[..n]) else s.pending[..n]
  }

  /** The state right after a tag of `len` characters at `n` was consumed. */
  function AfterTag(s: Split, n: nat, len: nat): Split
    requires n + len <= |s.pending|
  {
    Split(!s.inReasoning, s.done || s.inReasoning, true, false, s.pending[n + len..])
  }

  /** Consume the pending text as far as it can be classified. */
  ghost function Drive(tags: Tags, s: Split): Driven
    requires Proper(tags)
    decreases |s.pending|, 1
  {
    var p := if s.strip then TrimStart(s.pending) else s.pending;
    if s.strip && p == "" then
      Driven(s.(pending := ""), [])
    else if s.done then
      Driven(s.(strip := false, pending := ""), [Piece(false, p)])
    else if s.atStart && tags.open <= p then
      Drive(tags, s.(strip := true, atStart := false, pending := p[|tags.open|..]))
    else if s.atStart && p <= tags.open then
      Driven(s.(strip := false, pending := p), [])
    else
      Search(tags, s.(strip := false, atStart := false, pending := p))
  }

  /** Look for the tag that ends the current kind of text. */
  ghost function Search(tags: Tags, s: Split): Driven
    requires Proper(tags)
    decreases |s.pending|, 0
  {
    var tag := Tag(tags, s);
    match FirstHit([tag], s.pending)
    case Some(h) =>
      var d := Drive(tags, AfterTag(s, h.at, |tag|));
      Driven(d.st, NonEmptyPiece(s.inReasoning, Before(s, h.at)) + d.out)
    case None =>
      var safe := Before(s, |s.pending| - Hold([tag], s.pending));
      Driven(s.(pending := s.pending[|safe|..]), NonEmptyPiece(s.inReasoning, safe))
  }

  ghost function Pushed(tags: Tags, s: Split, text: string): Driven
    requires Proper(tags)
  {
    if s.done && s.pending == "" && !s.strip then
      Driven(s, NonEmptyPiece(false, text))
    else
      Drive(tags, s.(pending := s.pending + text))
  }

  /** End of output: a partial tag stays text of the current kind. */
  ghost function Flushed(s: Split): seq<Piece> {
    NonEmptyPiece(s.inReasoning, Before(s, |s.pending|))
  }

  // Steps of the loop below, one branch each.

  lemma DriveStripped(tags: Tags, s: Split)
    requires Proper(tags) && s.strip && TrimStart(s.pending) != ""
    ensures Drive(tags, s) == Drive(tags, s.(strip := false, pending := TrimStart(s.pending)))
  {
  }

  lemma DriveSearches(tags: Tags, s: Split)
    requires Proper(tags) && !s.strip && !s.done
    requires s.atStart ==> !(tags.open <= s.pending) && !(s.pending <= tags.open)
    ensures Drive(tags, s) == Search(tags, s.(atStart := false))
  {
  }

  lemma DriveTag(tags: Tags, s: Split, h: Hit)
    requires Proper(tags) && IsFirstHit([Tag(tags, s)], s.pending, h)
    ensures var d := Drive(tags, AfterTag(s, h.at, |Tag(tags, s)|));
      Search(tags, s) == Driven(d.st, NonEmptyPiece(s.inReasoning, Before(s, h.at)) + d.out)
  {
    FirstHitUnique([Tag(tags, s)], s.pending, h);
  }

  lemma DriveHolds(tags: Tags, s: Split)
    requires Proper(tags) && NoHit([Tag(tags, s)], s.pending)
    ensures var safe := Before(s, |s.pending| - Hold([Tag(tags, s)], s.pending));
      Search(tags, s) == Driven(s.(pending := s.pending[|safe|..]), NonEmptyPiece(s.inReasoning, safe))
  {
  }

  class ReasoningSplitter {
    var inReasoning: bool
    var done: bool
    var strip: bool
    var atStart: bool
    var pending: string

    ghost function State(): Split
      reads this
    {
      Split(inReasoning, done, strip, atStart, pending)
    }

    constructor (startInReasoning: bool)
      ensures State() == Start(startInReasoning)
    {
      inReasoning := startInReasoning;
      done := false;
      strip := startInReasoning;
      atStart := startInReasoning;
      pending := "";
    }

    /** Feed text; returns the pieces that became certain. */
    method Push(text: string) returns (out: seq<Piece>)
      modifies this
      ensures Proper(THINK) && Driven(State(), out) == Pushed(THINK, old(State()), text)
    {
      ThinkIsProper();
      if done && pending == "" && !strip {
        out := NonEmptyPiece(false, text);
        return;
      }
      var s: Split;
      s, out := Classify(THINK, Split(inReasoning, done, strip, atStart, pending + text));
      inReasoning, done, strip, atStart, pending := s.inReasoning, s.done, s.strip, s.atStart, s.pending;
    }

    method Flush() returns (out: seq<Piece>)
      modifies this
      ensures out == Flushed(old(State())) && State() == old(State()).(pending := "")
    {
      var rest := pending;
      pending := "";
      assert rest[..|rest|] == rest;
      if inReasoning {
        rest := TrimEnd(rest);
      }
      out := NonEmptyPiece(inReasoning, rest);
    }
  }

  /** The loop of a push: consume the pending text tag by tag. */
  method Classify(tags: Tags, start: Split) returns (s: Split, out: seq<Piece>)
    requires Proper(tags)
    ensures Driven(s, out) == Drive(tags, start)
  {
    s, out := start, [];
    while true
      invariant Drive(tags, start) == Then(out, Drive(tags, s))
      decreases |s.pending|
    {
      if s.strip {
        var rest := TrimStart(s.pending);
        if rest == "" {
          s := s.(pending := "");
          return;
        }
        DriveStripped(tags, s);
        s := s.(pending := rest, strip := false);
      }
      if s.done {
        out := out + [Piece(false, s.pending)];
        s := s.(pending := "");
        return;
      }
      if s.atStart {
        if tags.open <= s.pending {
          s := s.(pending := s.pending[|tags.open|..], atStart := false, strip := true);
          continue;
        }
        if s.pending <= tags.open {
          return;
        }
      }
      DriveSearches(tags, s);
      var s1, more, again := SearchTag(tags, s.(atStart := false));
      ThenThen(out, more, if again then Drive(tags, s1) else Driven(s1, []));
      s, out := s1, out + more;
      if !again {
        return;
      }
    }
  }

  /** Look for the tag ending the current kind of text; `again` when it was
      found and consumed, so that the rest is to be examined again. */
  method SearchTag(tags: Tags, s: Split) returns (s': Split, out: seq<Piece>, again: bool)
    requires Proper(tags)
    ensures again ==> |s'.pending| < |s.pending|
    ensures Search(tags, s) == Then(out, if again then Drive(tags, s') else Driven(s', []))
  {
    var tag := Tag(tags, s);
    var found := Leftmost([tag], s.pending);
    if found.Some? {
      var i := found.value.at;
      DriveTag(tags, s, found.value);
      return AfterTag(s, i, |tag|), NonEmptyPiece(s.inReasoning, Before(s, i)), true;
    }
    var cut := ReleaseUpTo(tag, s);
    DriveHolds(tags, s);
    s', out, again := s.(pending := s.pending[cut..]), NonEmptyPiece(s.inReasoning, s.pending[..cut]), false;
    ThenThen([], out, Driven(s', []));
  }

  /** Hold back a possible tag prefix and, in reasoning, the newlines before it. */
  method ReleaseUpTo(tag: string, s: Split) returns (cut: nat)
    requires tag != ""
    ensures cut <= |s.pending| && s.pending[..cut] == Before(s, |s.pending| - Hold([tag], s.pending))
  {
    var hold := LongestPartial([tag], s.pending);
    cut := |s.pending| - hold;
    if s.inReasoning {
      var rest := s.pending[..cut];
      TrimEndPrefix(rest);
      cut := |TrimEnd(rest)|;
      assert s.pending[..cut] == rest[..cut];
    }
  }

  /** Pieces released first, then a further drive. */
  ghost function Then(out: seq<Piece>, d: Driven): Driven {
    Driven(d.st, out + d.out)
  }

  lemma ThenThen(a: seq<Piece>, b: seq<Piece>, d: Driven)
    ensures Then(a, Then(b, d)) == Then(a + b, d)
    ensures d.out == [] ==> Then(b, d) == Driven(d.st, b)
  {
  }

  // ----- meaning: a split of the whole text ----------------------------------

  /** Concatenated visible text and reasoning. */
  datatype Shown = Shown(text: string, reasoning: string)

  function Plus(a: Shown, b: Shown): Shown {
    Shown(a.text + b.text, a.reasoning + b.reasoning)
  }

  function Shows(reasoning: bool, text: string): Shown {
    if reasoning then Shown("", text) else Shown(text, "")
  }

  function Show(out: seq<Piece>): Shown {
    if out == [] then Shown("", "") else Plus(Shows(out[0].reasoning, out[0].text), Show(out[1..]))
  }

  /** Reference: the one-shot split of a whole completion. */
  ghost function SplitWhole(tags: Tags, startInReasoning: bool, w: string): Shown {
    if startInReasoning then
      var v := TrimStart(w);
      SplitBlock(tags, if tags.open <= v then TrimStart(v[|tags.open|..]) else v)
    else
      match FirstHit([tags.open], w)
      case None => Shows(false, w)
      case Some(h) => Plus(Shows(false, w[..h.at]), SplitBlock(tags, TrimStart(w[h.at + |tags.open|..])))
  }

  /** `v` starts inside the block (newlines after the tag already dropped). */
  ghost function SplitBlock(tags: Tags, v: string): Shown {
    match FirstHit([tags.close], v)
    case None => Shows(true, TrimEnd(v))
    case Some(h) => Plus(Shows(true, TrimEnd(v[..h.at])), Shows(false, TrimStart(v[h.at + |tags.close|..])))
  }

  /** Where the automaton is and what it has released after the whole text. */
  datatype Reached = Reached(st: Split, shown: Shown)

  ghost function Reach(tags: Tags, startInReasoning: bool, w: string): Reached {
    if startInReasoning then ReachStart(tags, w) else ReachText(tags, w)
  }

  ghost function ReachText(tags: Tags, w: string): Reached {
    match FirstHit([tags.open], w)
    case None => ReachOpenEnd(false, w, |w| - Hold([tags.open], w))
    case Some(h) =>
      var r := ReachOpened(tags, w[h.at + |tags.open|..]);
      Reached(r.st, Plus(Shows(false, w[..h.at]), r.shown))
  }

  ghost function ReachStart(tags: Tags, w: string): Reached {
    var v := TrimStart(w);
    if v == "" then Reached(Start(true), Shown("", ""))
    else if tags.open <= v then ReachOpened(tags, v[|tags.open|..])
    else if v <= tags.open then Reached(Split(true, false, false, true, v), Shown("", ""))
    else ReachBlock(tags, v)
  }

  ghost function ReachOpened(tags: Tags, w: string): Reached {
    var v := TrimStart(w);
    if v == "" then Reached(Split(true, false, true, false, ""), Shown("", "")) else ReachBlock(tags, v)
  }

  ghost function ReachBlock(tags: Tags, v: string): Reached {
    match FirstHit([tags.close], v)
    case None => ReachOpenEnd(true, v, |v| - Hold([tags.close], v))
    case Some(h) =>
      var r := ReachClosed(v[h.at + |tags.close|..]);
      Reached(r.st, Plus(Shows(true, TrimEnd(v[..h.at])), r.shown))
  }

  /** No tag yet; everything after the first `n` characters might start one. */
  ghost function ReachOpenEnd(inReasoning: bool, v: string, n: nat): Reached
    requires n <= |v|
  {
    var safe := if inReasoning then TrimEnd(v[..n]) else v[..n];
    Reached(Split(inReasoning, false, false, false, v[|safe|..]), Shows(inReasoning, safe))
  }

  ghost function ReachClosed(w: string): Reached {
    var v := TrimStart(w);
    Reached(Split(false, true, v == "", false, ""), Shown(v, ""))
  }

  /** `d` takes the automaton from having shown `before` to `r`. */
  ghost predicate Leads(before: Shown, d: Driven, r: Reached) {
    d.st == r.st && Plus(before, Show(d.out)) == r.shown
  }

  lemma PlusAssociative(a: Shown, b: Shown, c: Shown)
    ensures Plus(Plus(a, b), c) == Plus(a, Plus(b, c))
  {
  }

  lemma PlusNothing(a: Shown)
    ensures Plus(a, Shown("", "")) == a == Plus(Shown("", ""), a)
  {
  }

  lemma PlusShows(reasoning: bool, a: string, b: string)
    ensures Plus(Shows(reasoning, a), Shows(reasoning, b)) == Shows(reasoning, a + b)
  {
  }

  lemma {:induction false} ShowAppend(a: seq<Piece>, b: seq<Piece>)
    ensures Show(a + b) == Plus(Show(a), Show(b))
  {
    if a == [] {
      assert a + b == b;
      PlusNothing(Show(b));
    } else {
      assert (a + b)[1..] == a[1..] + b;
      ShowAppend(a[1..], b);
      PlusAssociative(Shows(a[0].reasoning, a[0].text), Show(a[1..]), Show(b));
    }
  }

  lemma ShowPiece(reasoning: bool, text: string)
    ensures Show(NonEmptyPiece(reasoning, text)) == Shows(reasoning, text)
  {
    if text != "" {
      assert [Piece(reasoning, text)][1..] == [];
      PlusNothing(Shows(reasoning, text));
    }
  }

  /** Showing a piece and then what follows. */
  lemma ShowThen(before: Shown, reasoning: bool, text: string, out: seq<Piece>)
    ensures Plus(before, Show(NonEmptyPiece(reasoning, text) + out)) ==
      Plus(Plus(before, Shows(reasoning, text)), Show(out))
  {
    ShowPiece(reasoning, text);
    ShowAppend(NonEmptyPiece(reasoning, text), out);
    PlusAssociative(before, Shows(reasoning, text), Show(out));
  }

  lemma DriveClosed(tags: Tags, w: string)
    requires Proper(tags)
    ensures Leads(Shown("", ""), Drive(tags, Split(false, true, true, false, w)), ReachClosed(w))
  {
    ShowPiece(false, TrimStart(w));
    PlusNothing(Shown(TrimStart(w), ""));
  }

  ghost function OpenEnd(inReasoning: bool, b: string, n: nat): Driven
    requires n <= |b|
  {
    var safe := if inReasoning then TrimEnd(b[..n]) else b[..n];
    Driven(Split(inReasoning, false, false, false, b[|safe|..]), NonEmptyPiece(inReasoning, safe))
  }

  /** No tag yet, `e` released and `b` pending. */
  lemma DriveOpenEnd(inReasoning: bool, e: string, b: string, n: nat)
    requires n <= |b| && (inReasoning && e != "" ==> e[|e| - 1] != '\n')
    ensures Leads(Shows(inReasoning, e), OpenEnd(inReasoning, b, n), ReachOpenEnd(inReasoning, e + b, |e| + n))
  {
    var safe := if inReasoning then TrimEnd(b[..n]) else b[..n];
    ShowPiece(inReasoning, safe);
    assert e + b[..n] == (e + b)[..|e| + n];
    if inReasoning {
      TrimEndAppend(e, b[..n]);
    }
    assert (e + b)[|e| + |safe|..] == b[|safe|..];
  }

  /** A tag was found: what comes before it is shown, then what comes after. */
  lemma TagLeads(tags: Tags, before: Shown, s: Split, h: Hit, r: Reached)
    requires Proper(tags)
    requires IsFirstHit([Tag(tags, s)], s.pending, h)
    requires Leads(Shown("", ""), Drive(tags, AfterTag(s, h.at, |Tag(tags, s)|)), r)
    ensures Leads(before, Search(tags, s),
                  Reached(r.st, Plus(Plus(before, Shows(s.inReasoning, Before(s, h.at))), r.shown)))
  {
    hide FirstHit, Drive, Show;
    DriveTag(tags, s, h);
    var d := Drive(tags, AfterTag(s, h.at, |Tag(tags, s)|));
    PlusNothing(Show(d.out));
    ShowThen(before, s.inReasoning, Before(s, h.at), d.out);
  }

  /** A hit found in `b` splits `e + b` as it splits `b`. */
  lemma SliceAround(e: string, b: string, at: nat, len: nat)
    requires at + len <= |b|
    ensures (e + b)[..|e| + at] == e + b[..at]
    ensures (e + b)[|e| + at + len..] == b[at + len..]
  {
  }

  lemma BlockHit(tags: Tags, e: string, b: string, h: Hit)
    requires e != "" ==> e[|e| - 1] != '\n'
    requires FirstHit([tags.close], e + b) == Some(Hit(|e| + h.at, h.idx)) && h.at + |tags.close| <= |b|
    ensures var r := ReachClosed(b[h.at + |tags.close|..]);
      ReachBlock(tags, e + b) == Reached(r.st, Plus(Shows(true, e + TrimEnd(b[..h.at])), r.shown))
  {
    hide ReachClosed, FirstHit, Hold;
    SliceAround(e, b, h.at, |tags.close|);
    TrimEndAppend(e, b[..h.at]);
  }

  lemma SearchOpenEnd(tags: Tags, inReasoning: bool, b: string)
    requires Proper(tags)
    requires var tag := if inReasoning then tags.close else tags.open; NoHit([tag], b)
    ensures var tag := if inReasoning then tags.close else tags.open;
      Search(tags, Split(inReasoning, false, false, false, b)) == OpenEnd(inReasoning, b, |b| - Hold([tag], b))
  {
    DriveHolds(tags, Split(inReasoning, false, false, false, b));
  }

  lemma ReachBlockEnd(tags: Tags, v: string)
    requires FirstHit([tags.close], v).None?
    ensures ReachBlock(tags, v) == ReachOpenEnd(true, v, |v| - Hold([tags.close], v))
  {
  }

  lemma ReachTextEnd(tags: Tags, v: string)
    requires FirstHit([tags.open], v).None?
    ensures ReachText(tags, v) == ReachOpenEnd(false, v, |v| - Hold([tags.open], v))
  {
  }

  /** `e` was released without finding the tag and `b` is pending. */
  ghost predicate Resumes(tag: string, e: string, b: string) {
    SameFirstHit([tag], e, b) && Hold([tag], b) == Hold([tag], e + b)
  }

  lemma DriveBlockTag(tags: Tags, e: string, b: string, h: Hit)
    requires Proper(tags) && (e != "" ==> e[|e| - 1] != '\n')
    requires IsFirstHit([tags.close], b, h)
    requires FirstHit([tags.close], e + b) == Some(Hit(|e| + h.at, h.idx))
    ensures Leads(Shows(true, e), Search(tags, Split(true, false, false, false, b)), ReachBlock(tags, e + b))
  {
    hide ReachClosed, ReachBlock, FirstHit, Hold, Drive, Search, Show;
    var s := Split(true, false, false, false, b);
    var rest := b[h.at + |tags.close|..];
    BlockHit(tags, e, b, h);
    PlusShows(true, e, TrimEnd(b[..h.at]));
    DriveClosed(tags, rest);
    TagLeads(tags, Shows(true, e), s, h, ReachClosed(rest));
  }

  lemma DriveBlockEnd(tags: Tags, e: string, b: string, v: string)
    requires Proper(tags) && v == e + b && (e != "" ==> e[|e| - 1] != '\n')
    requires FirstHit([tags.close], b).None? && FirstHit([tags.close], v).None?
    requires Hold([tags.close], b) == Hold([tags.close], v)
    ensures Leads(Shows(true, e), Search(tags, Split(true, false, false, false, b)), ReachBlock(tags, v))
  {
    hide ReachBlock, FirstHit, Hold, Search, Show;
    var n := |b| - Hold([tags.close], b);
    SearchOpenEnd(tags, true, b);
    ReachBlockEnd(tags, v);
    assert |v| - Hold([tags.close], v) == |e| + n;
    DriveOpenEnd(true, e, b, n);
  }

  /** Inside the block with `e` released and `b` pending: the automaton ends up
      where the whole block text `e + b` leads. */
  lemma DriveBlock(tags: Tags, e: string, b: string)
    requires Proper(tags) && (e != "" ==> e[|e| - 1] != '\n')
    requires Resumes(tags.close, e, b)
    ensures Leads(Shows(true, e), Search(tags, Split(true, false, false, false, b)), ReachBlock(tags, e + b))
  {
    hide ReachBlock, FirstHit, Hold, Search, Show, Leads;
    var f := FirstHit([tags.close], b);
    if f.Some? {
      DriveBlockTag(tags, e, b, f.value);
    } else {
      DriveBlockEnd(tags, e, b, e + b);
    }
  }

  lemma FreshShift(tag: string, b: string)
    ensures Resumes(tag, "", b)
  {
    assert "" + b == b;
  }

  lemma DriveFreshBlock(tags: Tags, b: string)
    requires Proper(tags)
    ensures Leads(Shown("", ""), Search(tags, Split(true, false, false, false, b)), ReachBlock(tags, b))
  {
    FreshShift(tags.close, b);
    DriveBlock(tags, "", b);
    assert "" + b == b;
  }

  lemma DriveOpened(tags: Tags, w: string)
    requires Proper(tags)
    ensures Leads(Shown("", ""), Drive(tags, Split(true, false, true, false, w)), ReachOpened(tags, w))
  {
    hide Search, ReachBlock;
    DriveFreshBlock(tags, TrimStart(w));
  }

  lemma TextHit(tags: Tags, e: string, b: string, h: Hit)
    requires FirstHit([tags.open], e + b) == Some(Hit(|e| + h.at, h.idx)) && h.at + |tags.open| <= |b|
    ensures var r := ReachOpened(tags, b[h.at + |tags.open|..]);
      ReachText(tags, e + b) == Reached(r.st, Plus(Shows(false, e + b[..h.at]), r.shown))
  {
    hide ReachOpened, FirstHit, Hold;
    SliceAround(e, b, h.at, |tags.open|);
  }

  lemma DriveTextTag(tags: Tags, e: string, b: string, h: Hit)
    requires Proper(tags)
    requires IsFirstHit([tags.open], b, h)
    requires FirstHit([tags.open], e + b) == Some(Hit(|e| + h.at, h.idx))
    ensures Leads(Shows(false, e), Search(tags, Split(false, false, false, false, b)), ReachText(tags, e + b))
  {
    hide ReachOpened, ReachText, FirstHit, Hold, Drive, Search, Show;
    var s := Split(false, false, false, false, b);
    var rest := b[h.at + |tags.open|..];
    TextHit(tags, e, b, h);
    PlusShows(false, e, b[..h.at]);
    DriveOpened(tags, rest);
    TagLeads(tags, Shows(false, e), s, h, ReachOpened(tags, rest));
  }

  lemma DriveTextEnd(tags: Tags, e: string, b: string, v: string)
    requires Proper(tags) && v == e + b
    requires FirstHit([tags.open], b).None? && FirstHit([tags.open], v).None?
    requires Hold([tags.open], b) == Hold([tags.open], v)
    ensures Leads(Shows(false, e), Search(tags, Split(false, false, false, false, b)), ReachText(tags, v))
  {
    hide ReachText, FirstHit, Hold, Search, Show;
    var n := |b| - Hold([tags.open], b);
    SearchOpenEnd(tags, false, b);
    ReachTextEnd(tags, v);
    assert |v| - Hold([tags.open], v) == |e| + n;
    DriveOpenEnd(false, e, b, n);
  }

  /** The same before the block. */
  lemma DriveText(tags: Tags, e: string, b: string)
    requires Proper(tags) && Resumes(tags.open, e, b)
    ensures Leads(Shows(false, e), Search(tags, Split(false, false, false, false, b)), ReachText(tags, e + b))
  {
    hide ReachText, FirstHit, Hold, Search, Show, Leads;
    var f := FirstHit([tags.open], b);
    if f.Some? {
      DriveTextTag(tags, e, b, f.value);
    } else {
      DriveTextEnd(tags, e, b, e + b);
    }
  }

  /** A block the prompt opened: its first text is still undecided. */
  lemma DriveStart(tags: Tags, strip: bool, w: string)
    requires Proper(tags) && (!strip ==> w != "" && w[0] != '\n')
    ensures Leads(Shown("", ""), Drive(tags, Split(true, false, strip, true, w)), ReachStart(tags, w))
  {
    var v := TrimStart(w);
    if v != "" {
      if tags.open <= v {
        DriveOpened(tags, v[|tags.open|..]);
      } else if !(v <= tags.open) {
        DriveFreshBlock(tags, v);
      }
    }
  }

  // ----- pushing never looks back ----------------------------------------------

  /** Pushing `t` in the state reached after some text leads to `next`. */
  ghost predicate PushLeads(tags: Tags, r: Reached, t: string, next: Reached)
    requires Proper(tags)
  {
    Leads(r.shown, Pushed(tags, r.st, t), next)
  }

  /** Showing something before does not change where a push leads. */
  lemma PushAfter(tags: Tags, before: Shown, r: Reached, t: string, next: Reached)
    requires Proper(tags) && PushLeads(tags, r, t, next)
    ensures PushLeads(tags, Reached(r.st, Plus(before, r.shown)), t, Reached(next.st, Plus(before, next.shown)))
  {
    hide Pushed, Show;
    PlusAssociative(before, r.shown, Show(Pushed(tags, r.st, t).out));
  }

  /** A found tag stays the first one when text is appended. */
  lemma TagStays(tag: string, v: string, t: string, h: Hit)
    requires tag != "" && FirstHit([tag], v) == Some(h)
    ensures FirstHit([tag], v + t) == Some(h) && (v + t)[..h.at] == v[..h.at]
    ensures (v + t)[h.at + |tag|..] == v[h.at + |tag|..] + t
  {
    OccursLeft(tag, v, t, h.at);
    forall g | IsHit([tag], v + t, g) ensures NoLater(h, g) {
      if g.at < h.at {
        OccursLeft(tag, v, t, g.at);
        assert IsHit([tag], v, g) ==> NoLater(h, g);
      }
    }
    FirstHitUnique([tag], v + t, h);
  }

  lemma PushClosed(tags: Tags, w: string, t: string)
    requires Proper(tags)
    ensures PushLeads(tags, ReachClosed(w), t, ReachClosed(w + t))
  {
    TrimStartAppend(w, t);
    if TrimStart(w) == "" {
      assert "" + t == t;
      DriveClosed(tags, t);
    } else {
      ShowPiece(false, t);
      PlusShows(false, TrimStart(w), t);
    }
  }

  /** No tag yet in `v`, the first `n` characters released: looking on from the
      pending text finds what looking at the whole text finds. */
  lemma OpenEndShift(inReasoning: bool, tag: string, v: string, t: string) returns (e: string, p: string)
    requires NoHit([tag], v)
    ensures v == e + p && (inReasoning && e != "" ==> e[|e| - 1] != '\n')
    ensures ReachOpenEnd(inReasoning, v, |v| - Hold([tag], v)) ==
      Reached(Split(inReasoning, false, false, false, p), Shows(inReasoning, e))
    ensures Resumes(tag, e, p + t)
  {
    var rest := v[..|v| - Hold([tag], v)];
    e := if inReasoning then TrimEnd(rest) else rest;
    if inReasoning {
      var b := TrimEndParts(rest);
    }
    assert e == v[..|e|];
    p := v[|e|..];
    FirstHitShift([tag], v, t, |e|);
    HoldShift([tag], v, t, |e|);
  }

  lemma PushPlain(tags: Tags, s: Split, t: string)
    requires Proper(tags) && !s.strip && !s.done && !s.atStart
    ensures Pushed(tags, s, t) == Search(tags, s.(pending := s.pending + t))
  {
  }

  lemma PushBlockOpen(tags: Tags, v: string, t: string)
    requires Proper(tags) && FirstHit([tags.close], v).None?
    ensures PushLeads(tags, ReachBlock(tags, v), t, ReachBlock(tags, v + t))
  {
    hide FirstHit, Hold, Search, Show, Pushed, Drive;
    var e, p := OpenEndShift(true, tags.close, v, t);
    assert v + t == e + (p + t);
    assert ReachBlock(tags, v) == Reached(Split(true, false, false, false, p), Shows(true, e));
    PushPlain(tags, Split(true, false, false, false, p), t);
    DriveBlock(tags, e, p + t);
  }

  lemma PushBlockTag(tags: Tags, v: string, t: string, h: Hit)
    requires Proper(tags) && FirstHit([tags.close], v) == Some(h)
    ensures PushLeads(tags, ReachBlock(tags, v), t, ReachBlock(tags, v + t))
  {
    hide FirstHit, PushLeads, ReachClosed;
    var rest := v[h.at + |tags.close|..];
    TagStays(tags.close, v, t, h);
    PushClosed(tags, rest, t);
    PushAfter(tags, Shows(true, TrimEnd(v[..h.at])), ReachClosed(rest), t, ReachClosed(rest + t));
  }

  lemma PushBlock(tags: Tags, v: string, t: string)
    requires Proper(tags)
    ensures PushLeads(tags, ReachBlock(tags, v), t, ReachBlock(tags, v + t))
  {
    hide PushLeads, ReachBlock;
    var f := FirstHit([tags.close], v);
    if f.Some? {
      PushBlockTag(tags, v, t, f.value);
    } else {
      PushBlockOpen(tags, v, t);
    }
  }

  lemma PushOpened(tags: Tags, w: string, t: string)
    requires Proper(tags)
    ensures PushLeads(tags, ReachOpened(tags, w), t, ReachOpened(tags, w + t))
  {
    TrimStartAppend(w, t);
    if TrimStart(w) == "" {
      assert "" + t == t;
      DriveOpened(tags, t);
    } else {
      PushBlock(tags, TrimStart(w), t);
    }
  }

  lemma PushTextOpen(tags: Tags, v: string, t: string)
    requires Proper(tags) && FirstHit([tags.open], v).None?
    ensures PushLeads(tags, ReachText(tags, v), t, ReachText(tags, v + t))
  {
    hide FirstHit, Hold, Search, Show, Pushed, Drive;
    var e, p := OpenEndShift(false, tags.open, v, t);
    assert v + t == e + (p + t);
    assert ReachText(tags, v) == Reached(Split(false, false, false, false, p), Shows(false, e));
    PushPlain(tags, Split(false, false, false, false, p), t);
    DriveText(tags, e, p + t);
  }

  lemma PushTextTag(tags: Tags, v: string, t: string, h: Hit)
    requires Proper(tags) && FirstHit([tags.open], v) == Some(h)
    ensures PushLeads(tags, ReachText(tags, v), t, ReachText(tags, v + t))
  {
    hide FirstHit, PushLeads, ReachOpened;
    var rest := v[h.at + |tags.open|..];
    TagStays(tags.open, v, t, h);
    PushOpened(tags, rest, t);
    PushAfter(tags, Shows(false, v[..h.at]), ReachOpened(tags, rest), t, ReachOpened(tags, rest + t));
  }

  lemma PushText(tags: Tags, v: string, t: string)
    requires Proper(tags)
    ensures PushLeads(tags, ReachText(tags, v), t, ReachText(tags, v + t))
  {
    hide PushLeads, ReachText;
    var f := FirstHit([tags.open], v);
    if f.Some? {
      PushTextTag(tags, v, t, f.value);
    } else {
      PushTextOpen(tags, v, t);
    }
  }

  /** Whether text starts with the tag is settled once it is not a prefix of it. */
  lemma StartSettled(tag: string, v: string, t: string)
    ensures tag <= v ==> tag <= v + t && (v + t)[|tag|..] == v[|tag|..] + t
    ensures !(tag <= v) && !(v <= tag) ==> !(tag <= v + t) && !(v + t <= tag)
  {
    if tag <= v + t && !(tag <= v) {
      assert v == (v + t)[..|v|] == tag[..|v|];
    }
    if v + t <= tag {
      assert v == (v + t)[..|v|] == tag[..|v|];
    }
  }

  lemma PushStart(tags: Tags, w: string, t: string)
    requires Proper(tags)
    ensures PushLeads(tags, ReachStart(tags, w), t, ReachStart(tags, w + t))
  {
    TrimStartAppend(w, t);
    var v := TrimStart(w);
    if v == "" {
      assert "" + t == t;
      DriveStart(tags, true, t);
    } else {
      var a := TrimStartParts(w);
      StartSettled(tags.open, v, t);
      assert "" + (v + t) == v + t;
      TrimStartUnique("", v + t);
      if tags.open <= v {
        PushOpened(tags, v[|tags.open|..], t);
      } else if v <= tags.open {
        DriveStart(tags, false, v + t);
      } else {
        PushBlock(tags, v, t);
      }
    }
  }

  /** The state and the text shown depend only on the whole text so far:
      pushing `t` after `w` leads where the text `w + t` leads. */
  lemma PushReaches(tags: Tags, startInReasoning: bool, w: string, t: string)
    requires Proper(tags)
    ensures PushLeads(tags, Reach(tags, startInReasoning, w), t, Reach(tags, startInReasoning, w + t))
  {
    hide PushLeads, ReachText, ReachStart;
    if startInReasoning {
      PushStart(tags, w, t);
    } else {
      PushText(tags, w, t);
    }
  }

  lemma ReachNothing(tags: Tags, startInReasoning: bool)
    requires Proper(tags)
    ensures Reach(tags, startInReasoning, "") == Reached(Start(startInReasoning), Shown("", ""))
  {
    if !startInReasoning {
      assert forall h :: !IsHit([tags.open], "", h);
    }
  }

  // ----- the end of the text ---------------------------------------------------

  /** What `r` has shown once the held back text is released. */
  ghost function AllShown(r: Reached): Shown {
    Plus(r.shown, Show(Flushed(r.st)))
  }

  lemma TotalAfter(before: Shown, r: Reached)
    ensures AllShown(Reached(r.st, Plus(before, r.shown))) == Plus(before, AllShown(r))
  {
    PlusAssociative(before, r.shown, Show(Flushed(r.st)));
  }

  lemma FlushHeld(s: Split, e: string)
    ensures AllShown(Reached(s, Shows(s.inReasoning, e))) ==
      Shows(s.inReasoning, e + if s.inReasoning then TrimEnd(s.pending) else s.pending)
  {
    hide FirstHit;
    var p := s.pending;
    assert p[..|p|] == p;
    ShowPiece(s.inReasoning, Before(s, |p|));
    PlusShows(s.inReasoning, e, Before(s, |p|));
  }

  lemma FlushTextEnd(v: string, n: nat)
    requires n <= |v|
    ensures AllShown(ReachOpenEnd(false, v, n)) == Shows(false, v)
  {
    assert v[..n] + v[n..] == v;
    FlushHeld(Split(false, false, false, false, v[n..]), v[..n]);
  }

  lemma FlushBlockEnd(v: string, n: nat)
    requires n <= |v|
    ensures AllShown(ReachOpenEnd(true, v, n)) == Shows(true, TrimEnd(v))
  {
    var e := TrimEnd(v[..n]);
    var b := TrimEndParts(v[..n]);
    var p := b + v[n..];
    Cut3(v, n, e, b);
    TrimEndAppend(e, p);
    FlushHeld(Split(true, false, false, false, p), e);
  }

  lemma Cut3(v: string, n: nat, e: string, b: string)
    requires n <= |v| && v[..n] == e + b
    ensures v == e + (b + v[n..]) && v[|e|..] == b + v[n..]
  {
    assert v == v[..n] + v[n..];
  }

  lemma FlushClosed(w: string)
    ensures AllShown(ReachClosed(w)) == Shows(false, TrimStart(w))
  {
    PlusNothing(ReachClosed(w).shown);
  }

  lemma FlushBlockTag(tags: Tags, v: string, h: Hit)
    requires Proper(tags) && FirstHit([tags.close], v) == Some(h)
    ensures AllShown(ReachBlock(tags, v)) == SplitBlock(tags, v)
  {
    hide Show, ReachClosed, AllShown;
    var rest := v[h.at + |tags.close|..];
    FlushClosed(rest);
    TotalAfter(Shows(true, TrimEnd(v[..h.at])), ReachClosed(rest));
  }

  lemma FlushBlock(tags: Tags, v: string)
    requires Proper(tags)
    ensures AllShown(ReachBlock(tags, v)) == SplitBlock(tags, v)
  {
    var f := FirstHit([tags.close], v);
    if f.Some? {
      FlushBlockTag(tags, v, f.value);
    } else {
      FlushBlockEnd(v, |v| - Hold([tags.close], v));
    }
  }

  lemma FlushEmptyBlock(tags: Tags)
    requires Proper(tags)
    ensures SplitBlock(tags, "") == Shown("", "")
  {
    assert forall h :: !IsHit([tags.close], "", h);
  }

  lemma FlushOpened(tags: Tags, w: string)
    requires Proper(tags)
    ensures AllShown(ReachOpened(tags, w)) == SplitBlock(tags, TrimStart(w))
  {
    if TrimStart(w) == "" {
      FlushHeld(Split(true, false, true, false, ""), "");
      FlushEmptyBlock(tags);
    } else {
      FlushBlock(tags, TrimStart(w));
    }
  }

  /** A proper prefix of the opening tag contains no closing tag. */
  lemma PartialTagIsText(tags: Tags, v: string)
    requires v <= tags.open
    ensures NoHit([tags.close], v) || Contains(tags.close, tags.open)
  {
    if h: Hit :| IsHit([tags.close], v, h) {
      OccursLeft(tags.close, v, tags.open[|v|..], h.at);
      assert v + tags.open[|v|..] == tags.open;
    }
  }

  lemma FlushStart(tags: Tags, w: string)
    requires Proper(tags)
    ensures AllShown(ReachStart(tags, w)) == SplitWhole(tags, true, w)
  {
    var v := TrimStart(w);
    if v == "" {
      FlushHeld(Start(true), "");
      FlushEmptyBlock(tags);
    } else if tags.open <= v {
      FlushOpened(tags, v[|tags.open|..]);
    } else if v <= tags.open {
      FlushHeld(Split(true, false, false, true, v), "");
      assert "" + TrimEnd(v) == TrimEnd(v);
      PartialTagIsText(tags, v);
    } else {
      FlushBlock(tags, v);
    }
  }

  lemma FlushText(tags: Tags, w: string)
    requires Proper(tags)
    ensures AllShown(ReachText(tags, w)) == SplitWhole(tags, false, w)
  {
    hide Show, ReachOpened, SplitBlock, AllShown;
    var f := FirstHit([tags.open], w);
    if f.Some? {
      var rest := w[f.value.at + |tags.open|..];
      FlushOpened(tags, rest);
      TotalAfter(Shows(false, w[..f.value.at]), ReachOpened(tags, rest));
    } else {
      FlushTextEnd(w, |w| - Hold([tags.open], w));
    }
  }

  // ----- main theorem ------------------------------------------------------------

  /** Push the chunks one by one, then release what is held back. */
  ghost function Fed(tags: Tags, startInReasoning: bool, chunks: seq<string>): Driven
    requires Proper(tags)
  {
    if chunks == [] then
      Driven(Start(startInReasoning), [])
    else
      var d := Fed(tags, startInReasoning, chunks[..|chunks| - 1]);
      Then(d.out, Pushed(tags, d.st, chunks[|chunks| - 1]))
  }

  /** The state reached and the text shown depend only on the whole text fed,
      not on how it was cut into chunks. */
  lemma {:induction false} FedReaches(tags: Tags, startInReasoning: bool, chunks: seq<string>)
    requires Proper(tags)
    ensures var d := Fed(tags, startInReasoning, chunks);
      Reached(d.st, Show(d.out)) == Reach(tags, startInReasoning, Flatten(chunks))
  {
    hide Pushed, Reach;
    if chunks == [] {
      ReachNothing(tags, startInReasoning);
    } else {
      var init := chunks[..|chunks| - 1];
      var t := chunks[|chunks| - 1];
      var d := Fed(tags, startInReasoning, init);
      FedReaches(tags, startInReasoning, init);
      PushReaches(tags, startInReasoning, Flatten(init), t);
      ShowAppend(d.out, Pushed(tags, d.st, t).out);
    }
  }

  /** However the completion is chunked, the visible text and the reasoning are
      those of the one-shot split of the whole completion. */
  lemma {:induction false} AnyChunkingSplitsWhole(tags: Tags, startInReasoning: bool, chunks: seq<string>)
    requires Proper(tags)
    ensures var d := Fed(tags, startInReasoning, chunks);
      Show(d.out + Flushed(d.st)) == SplitWhole(tags, startInReasoning, Flatten(chunks))
  {
    hide Pushed, ReachText, ReachStart, Show, SplitWhole;
    var d := Fed(tags, startInReasoning, chunks);
    FedReaches(tags, startInReasoning, chunks);
    ShowAppend(d.out, Flushed(d.st));
    if startInReasoning {
      FlushStart(tags, Flatten(chunks));
    } else {
      FlushText(tags, Flatten(chunks));
    }
  }

  lemma FedSnoc(tags: Tags, startInReasoning: bool, chunks: seq<string>, a: string)
    requires Proper(tags)
    ensures var d := Fed(tags, startInReasoning, chunks);
      Fed(tags, startInReasoning, chunks + [a]) == Then(d.out, Pushed(tags, d.st, a))
    ensures Flatten(chunks + [a]) == Flatten(chunks) + a
  {
    assert (chunks + [a])[..|chunks|] == chunks;
  }

  /** After any text, pushing `a` then `b` is the same as pushing `a + b`. */
  lemma {:induction false} PushTwice(tags: Tags, startInReasoning: bool, chunks: seq<string>, a: string, b: string)
    requires Proper(tags)
    ensures var d := Fed(tags, startInReasoning, chunks);
      var once := Pushed(tags, d.st, a + b);
      var first := Pushed(tags, d.st, a);
      var second := Pushed(tags, first.st, b);
      second.st == once.st &&
      Show(d.out + first.out + second.out) == Show(d.out + once.out)
  {
    hide Pushed, Reach, Show;
    FedReaches(tags, startInReasoning, chunks + [a + b]);
    FedReaches(tags, startInReasoning, chunks + [a] + [b]);
    FedSnoc(tags, startInReasoning, chunks, a + b);
    FedSnoc(tags, startInReasoning, chunks, a);
    FedSnoc(tags, startInReasoning, chunks + [a], b);
    assert Flatten(chunks) + a + b == Flatten(chunks) + (a + b);
  }
}
