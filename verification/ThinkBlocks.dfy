/** What the splitter makes of a completion that is written with a reasoning
    block, tag by tag. */
module ThinkBlocks {
  import opened Wrappers
  import opened StopStrings
  import opened Reasoning

  /** The first character of the tag is nowhere else in it. */
  predicate Unbordered(tag: string) {
    tag != "" && forall i | 0 < i < |tag| :: tag[i] != tag[0]
  }

  lemma TagsAreUnbordered()
    ensures Unbordered("<think>") && Unbordered("</think>")
  {
  }

  lemma NoEarlierTag(tag: string, before: string, rest: string, p: nat)
    requires Unbordered(tag) && !Contains(tag, before) && p < |before|
    ensures !OccursAt(tag, before + tag + rest, p)
  {
    var w := before + tag + rest;
    if p + |tag| <= |before| {
      OccursLeft(tag, before, tag + rest, p);
      assert w == before + (tag + rest);
    } else {
      assert w[|before|] == tag[0];
      assert p + |tag| <= |w| ==> w[p..p + |tag|][|before| - p] == w[|before|];
    }
  }

  /** The tag is found where it was written. */
  lemma TagIsFound(tag: string, before: string, rest: string)
    requires Unbordered(tag) && !Contains(tag, before)
    ensures FirstHit([tag], before + tag + rest) == Some(Hit(|before|, 0))
    ensures (before + tag + rest)[..|before|] == before && (before + tag + rest)[|before| + |tag|..] == rest
  {
    var w := before + tag + rest;
    assert w[|before|..|before| + |tag|] == tag;
    forall h | IsHit([tag], w, h) ensures NoLater(Hit(|before|, 0), h) {
      if h.at < |before| {
        NoEarlierTag(tag, before, rest, h.at);
      }
    }
    FirstHitUnique([tag], w, Hit(|before|, 0));
  }

  lemma NoTag(tag: string, w: string)
    requires !Contains(tag, w)
    ensures FirstHit([tag], w) == None
  {
    forall h ensures !IsHit([tag], w, h) {
      assert !OccursAt(tag, w, h.at);
    }
  }

  /** Reasoning as it is written between tags: newlines around it do not count. */
  ghost predicate Framed(text: string, inner: string) {
    (inner != "" ==> inner[0] != '\n' && inner[|inner| - 1] != '\n') &&
    exists a, b :: AllNewlines(a) && AllNewlines(b) && text == a + inner + b
  }

  lemma FramedTrims(text: string, inner: string, rest: string) returns (b: string)
    requires Framed(text, inner) && (rest == "" || rest[0] != '\n')
    ensures AllNewlines(b) && (inner != "" ==> TrimEnd(inner + b) == inner)
    ensures TrimStart(text + rest) == if inner == "" then rest else inner + b + rest
  {
    hide TrimStart, TrimEnd;
    var a: string;
    a, b :| AllNewlines(a) && AllNewlines(b) && text == a + inner + b;
    TrimEndUnique(inner, b);
    if inner == "" {
      assert text + rest == (a + b) + rest;
      TrimStartUnique(a + b, rest);
    } else {
      assert text + rest == a + (inner + b + rest);
      TrimStartUnique(a, inner + b + rest);
    }
  }

  /** The text after a closing tag: newlines after the tag do not count. */
  ghost predicate Follows(text: string, after: string) {
    (after != "" ==> after[0] != '\n') && exists a :: AllNewlines(a) && text == a + after
  }

  lemma FollowsTrims(text: string, after: string)
    requires Follows(text, after)
    ensures TrimStart(text) == after
  {
    var a :| AllNewlines(a) && text == a + after;
    TrimStartUnique(a, after);
  }

  /** A closed block after its opening tag. */
  lemma BlockIsSplit(text: string, inner: string, tail: string, after: string)
    requires Framed(text, inner) && !Contains("</think>", text) && Follows(tail, after)
    ensures SplitBlock(THINK, TrimStart(text + "</think>" + tail)) == Shown(after, inner)
  {
    hide FirstHit, Contains, TrimStart, TrimEnd;
    TagsAreUnbordered();
    var rest := "</think>" + tail;
    assert text + "</think>" + tail == text + rest;
    var b := FramedTrims(text, inner, rest);
    FollowsTrims(tail, after);
    if inner == "" {
      assert "" + "</think>" + tail == rest;
      EmptyHasNoTag();
      TagIsFound("</think>", "", tail);
      TrimNothing();
    } else {
      assert inner + b + rest == (inner + b) + "</think>" + tail;
      InnerHasNoTag(text, inner, b, rest);
      TagIsFound("</think>", inner + b, tail);
    }
    assert "" + after == after && inner + "" == inner;
  }

  lemma TrimNothing()
    ensures TrimEnd("") == ""
  {
  }

  lemma EmptyHasNoTag()
    ensures !Contains("</think>", "")
  {
    assert |"</think>"| == 8;
  }

  lemma InnerHasNoTag(text: string, inner: string, b: string, rest: string)
    requires !Contains("</think>", text) && TrimStart(text + rest) == inner + b + rest
    ensures !Contains("</think>", inner + b)
  {
    hide TrimStart;
    if p: nat :| OccursAt("</think>", inner + b, p) {
      var a := TrimStartParts(text + rest);
      assert text + rest == (a + (inner + b)) + rest;
      assert |text| == |a + (inner + b)| && text == (text + rest)[..|text|] == a + (inner + b);
      OccursRight("</think>", a, inner + b, p);
    }
  }

  /** A block that is never closed is reasoning to the end. */
  lemma OpenBlockIsSplit(text: string, inner: string)
    requires Framed(text, inner) && !Contains("</think>", text)
    ensures SplitBlock(THINK, TrimStart(text)) == Shown("", inner)
  {
    hide FirstHit, Contains, TrimStart, TrimEnd;
    var b := FramedTrims(text, inner, "");
    assert text + "" == text;
    TrimNothing();
    if inner == "" {
      EmptyHasNoTag();
      NoTag("</think>", "");
    } else {
      InnerHasNoTag(text, inner, b, "");
      assert inner + b + "" == inner + b;
      NoTag("</think>", inner + b);
    }
  }

  /** Text, a reasoning block and more text, as a model writes them: the block is
      the reasoning, everything else the text, the tags and the newlines next to
      them go. */
  lemma WrittenIsSplit(before: string, text: string, inner: string, tail: string, after: string)
    requires !Contains("<think>", before) && Framed(text, inner) && !Contains("</think>", text) && Follows(tail, after)
    ensures SplitWhole(THINK, false, before + "<think>" + (text + "</think>" + tail)) == Shown(before + after, inner)
    ensures SplitWhole(THINK, false, before + "<think>" + text) == Shown(before, inner)
    ensures SplitWhole(THINK, false, before) == Shown(before, "")
  {
    hide FirstHit, Contains, TrimStart, TrimEnd, SplitBlock, Framed, Follows;
    TagsAreUnbordered();
    TagIsFound("<think>", before, text + "</think>" + tail);
    TagIsFound("<think>", before, text);
    NoTag("<think>", before);
    BlockIsSplit(text, inner, tail, after);
    OpenBlockIsSplit(text, inner);
    assert "" + inner == inner && before + "" == before;
  }

  /** The same for a prompt that already opened the block; the model may repeat the
      opening tag. */
  lemma ContinuedIsSplit(lead: string, text: string, inner: string, tail: string, after: string)
    requires AllNewlines(lead) && Framed(text, inner) && !Contains("</think>", text) && Follows(tail, after)
    ensures SplitWhole(THINK, true, lead + ("<think>" + (text + "</think>" + tail))) == Shown(after, inner)
    ensures !("<think>" <= TrimStart(text + "</think>" + tail)) ==>
      SplitWhole(THINK, true, text + "</think>" + tail) == Shown(after, inner)
  {
    hide FirstHit, Contains, TrimStart, TrimEnd, SplitBlock, Framed, Follows;
    var rest := "<think>" + (text + "</think>" + tail);
    assert rest[0] == '<';
    TrimStartUnique(lead, rest);
    assert rest[|"<think>"|..] == text + "</think>" + tail;
    BlockIsSplit(text, inner, tail, after);
  }
}
