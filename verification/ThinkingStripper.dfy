/** The stream filter that drops thinking blocks, one character at a time. */
module ThinkingStrippers {
  import opened Basics
  import opened Text

  const OPEN: seq<string> := ["<thinking>", "<think>"]
  const HOLD: nat := 12

  predicate Opens(s: string) { EndsWith(s, "<thinking>") || EndsWith(s, "<think>") }

  predicate Closes(s: string) { EndsWith(s, "</thinking>") || EndsWith(s, "</think>") }

  datatype State = State(inside: bool, buf: string)

  const START: State := State(false, "")

  /** One character: the new state and what is sent on. */
  function Step(s: State, ch: char): (State, string) {
    var buf := s.buf + [ch];
    if s.inside then (if Closes(buf) then State(false, "") else State(true, buf), "")
    else if Opens(buf) then (State(true, ""), "")
    else if '<' !in buf || |buf| > HOLD then (State(false, ""), buf)
    else (State(false, buf), "")
  }

  function Feed(s: State, text: string): (State, string)
    decreases |text|
  {
    if text == [] then (s, "")
    else
      var (s1, out) := Step(s, text[0]);
      var (s2, rest) := Feed(s1, text[1..]);
      (s2, out + rest)
  }

  function Flush(s: State): string { if s.inside then "" else s.buf }

  /** All that a text gives from the start. */
  function Output(text: string): string {
    var (s, out) := Feed(START, text);
    out + Flush(s)
  }

  // ---- the code ----

  class ThinkingStripper {
    var inside: bool
    var buf: string

    constructor ()
      ensures State(inside, buf) == START
    {
      inside, buf := false, "";
    }

    method FeedToken(token: string) returns (out: string)
      modifies this
      ensures (State(inside, buf), out) == Feed(old(State(inside, buf)), token)
    {
      out := "";
      ghost var start := State(inside, buf);
      assert token[0..] == token && "" + Feed(start, token).1 == Feed(start, token).1;
      for i := 0 to |token|
        invariant Sent(out, Feed(State(inside, buf), token[i..])) == Feed(start, token)
      {
        assert token[i..][1..] == token[i + 1..];
        ghost var s, rest := State(inside, buf), Feed(Step(State(inside, buf), token[i]).0, token[i + 1..]);
        ghost var step := Step(s, token[i]).1;
        assert out + (step + rest.1) == (out + step) + rest.1;
        buf := buf + [token[i]];
        if !inside {
          if Opens(buf) {
            inside, buf := true, "";
            assert out + "" == out;
            continue;
          }
          if '<' !in buf {
            out := out + buf;
            buf := "";
          } else if |buf| > HOLD {
            out := out + buf;
            buf := "";
          } else {
            assert out + "" == out;
          }
        } else {
          assert out + "" == out;
          if Closes(buf) {
            inside, buf := false, "";
          }
        }
      }
      assert out + "" == out;
    }

    method FlushRest() returns (result: string)
      modifies this
      ensures result == Flush(old(State(inside, buf)))
      ensures inside == old(inside) && buf == if inside then old(buf) else ""
    {
      if inside {
        return "";
      }
      result := buf;
      buf := "";
    }
  }

  function Sent(out: string, r: (State, string)): (State, string) { (r.0, out + r.1) }

  predicate IsTag(tag: string) { tag in OPEN }

  lemma TagShape(tag: string)
    requires IsTag(tag)
    ensures 7 <= |tag| <= 10 && tag[0] == '<' && forall i :: 0 < i < |tag| ==> tag[i] != '<'
    ensures forall i :: 0 <= i < |tag| - 1 ==> tag[i] != '>'
  {
  }

  // ---- the same output for every chunking ----

  lemma {:induction false} FeedAppend(s: State, a: string, b: string)
    ensures Feed(s, a + b) == Sent(Feed(s, a).1, Feed(Feed(s, a).0, b))
    decreases |a|
  {
    hide Step;
    if a == [] {
      assert a + b == b && "" + Feed(s, b).1 == Feed(s, b).1;
    } else {
      assert (a + b)[1..] == a[1..] + b;
      var (s1, out) := Step(s, a[0]);
      FeedAppend(s1, a[1..], b);
      var (s2, rest) := Feed(s1, a[1..]);
      assert out + (rest + Feed(s2, b).1) == (out + rest) + Feed(s2, b).1;
    }
  }

  function Concat(chunks: seq<string>): string { if chunks == [] then "" else chunks[0] + Concat(chunks[1..]) }

  function FeedChunks(s: State, chunks: seq<string>): (State, string)
    decreases |chunks|
  {
    if chunks == [] then (s, "")
    else
      var (s1, out) := Feed(s, chunks[0]);
      Sent(out, FeedChunks(s1, chunks[1..]))
  }

  /** However the text is cut into tokens, the state and the whole output are those of the text in one piece. */
  lemma {:induction false} ChunksDoNotMatter(s: State, chunks: seq<string>)
    ensures FeedChunks(s, chunks) == Feed(s, Concat(chunks))
    decreases |chunks|
  {
    if chunks != [] {
      FeedAppend(s, chunks[0], Concat(chunks[1..]));
      ChunksDoNotMatter(Feed(s, chunks[0]).0, chunks[1..]);
    }
  }

  // ---- text without an opening tag ----

  /** The states in which text outside blocks is held back. */
  predicate Holding(s: State) { !s.inside && |s.buf| <= HOLD && (s.buf != "" ==> '<' in s.buf) }

  lemma EndsInside(s: string, t: string)
    requires EndsWith(s, t)
    ensures Contains(s, t)
  {
    assert OccursAt(s, t, |s| - |t|);
  }

  lemma OpensContains(s: string)
    requires Opens(s)
    ensures Contains(s, "<thinking>") || Contains(s, "<think>")
  {
    if EndsWith(s, "<thinking>") { EndsInside(s, "<thinking>"); } else { EndsInside(s, "<think>"); }
  }

  predicate Untagged(text: string) { !Contains(text, "<thinking>") && !Contains(text, "<think>") }

  lemma UntaggedParts(a: string, b: string)
    requires Untagged(a + b)
    ensures Untagged(a) && Untagged(b)
  {
    assert "" + a + b == a + b && a + b + "" == a + b;
    if Contains(a, "<thinking>") { ContainsIn("", a, b, "<thinking>"); }
    if Contains(a, "<think>") { ContainsIn("", a, b, "<think>"); }
    if Contains(b, "<thinking>") { ContainsIn(a, b, "", "<thinking>"); }
    if Contains(b, "<think>") { ContainsIn(a, b, "", "<think>"); }
  }

  lemma HoldingStep(s: State, c: char)
    requires Holding(s) && Untagged(s.buf + [c])
    ensures var (s', out) := Step(s, c); Holding(s') && out + s'.buf == s.buf + [c]
  {
    var buf := s.buf + [c];
    if Opens(buf) {
      OpensContains(buf);
      assert false;
    }
    assert buf + "" == buf && "" + buf == buf;
  }

  lemma {:induction false} NothingOpens(s: State, text: string)
    requires Holding(s) && Untagged(s.buf + text)
    ensures var (s', out) := Feed(s, text); Holding(s') && out + s'.buf == s.buf + text
    decreases |text|
  {
    if text == [] {
      assert s.buf + text == s.buf;
    } else {
      hide Untagged, Step;
      var buf := s.buf + [text[0]];
      assert s.buf + text == buf + text[1..];
      UntaggedParts(buf, text[1..]);
      HoldingStep(s, text[0]);
      var (s1, out) := Step(s, text[0]);
      Regroup(out, s1.buf, text[1..]);
      UntaggedParts(out, s1.buf + text[1..]);
      NothingOpens(s1, text[1..]);
      var (s2, rest) := Feed(s1, text[1..]);
      Regroup(out, rest, s2.buf);
      hide Holding;
    }
  }

  lemma Regroup(a: string, b: string, c: string)
    ensures a + (b + c) == a + b + c
  {
  }

  /** Without an opening tag nothing is lost, and never more than twelve characters are held back. */
  lemma UntaggedPasses(text: string)
    requires Untagged(text)
    ensures Output(text) == text
    ensures var (s, out) := Feed(START, text); out + s.buf == text && |s.buf| <= HOLD
  {
    assert START.buf + text == text;
    NothingOpens(START, text);
  }

  // ---- text with closed blocks ----

  predicate NoAngle(s: string) { '<' !in s }

  lemma {:induction false} PlainPasses(text: string)
    requires NoAngle(text)
    ensures Feed(START, text) == (START, text)
  {
    if text != [] {
      assert [] + [text[0]] == [text[0]];
      assert !Opens([text[0]]);
      PlainPasses(text[1..]);
      assert [text[0]] + text[1..] == text;
    }
  }

  /** The rest of a block after its opening tag: up to its first closing tag. */
  predicate BlockRest(s: string) { Closes(s) && forall k :: 0 <= k < |s| ==> !Closes(s[..k]) }

  lemma {:induction false} InsideDrops(s: string, k: nat)
    requires BlockRest(s) && k <= |s|
    ensures Feed(State(true, ""), s[..k]) == (if k == |s| then START else State(true, s[..k]), "")
  {
    if k > 0 {
      InsideDrops(s, k - 1);
      assert s[..k] == s[..k - 1] + [s[k - 1]];
      FeedAppend(State(true, ""), s[..k - 1], [s[k - 1]]);
      OneStep(State(true, s[..k - 1]), s[k - 1]);
      if k == |s| { assert s[..k] == s; }
    } else {
      assert s[..0] == "";
    }
  }

  lemma OneStep(s: State, c: char)
    ensures Feed(s, [c]) == Step(s, c)
  {
    assert [c][1..] == [];
    assert Step(s, c).1 + "" == Step(s, c).1;
  }

  /** A tag that begins when b is held back is seen exactly when it is complete before more than twelve characters are
   *  held; what was held is then dropped with it. Otherwise everything is sent on. */
  lemma OpeningTag(b: string, tag: string)
    requires IsTag(tag) && Holding(State(false, b))
    ensures |b| + |tag| - 1 <= HOLD ==> Feed(State(false, b), tag) == (State(true, ""), "")
    ensures |b| + |tag| - 1 > HOLD ==> Feed(State(false, b), tag) == (START, b + tag)
  {
    hide IsTag;
    TagShape(tag);
    hide Feed, Step, Holding;
    if |b| + |tag| - 1 <= HOLD { TagSeen(b, tag); } else { TagMissed(b, tag); }
  }

  lemma TagSeen(b: string, tag: string)
    requires IsTag(tag) && Holding(State(false, b)) && |b| + |tag| - 1 <= HOLD
    ensures Feed(State(false, b), tag) == (State(true, ""), "")
  {
    hide IsTag;
    TagShape(tag);
    var k := |tag| - 1;
    assert tag == tag[..k] + [tag[k]];
    assert b + tag[..k] + [tag[k]] == b + tag;
    HoldTag(b, tag, k);
    TagOpens(b, tag);
    OpensAfter(b, tag[..k], tag[k]);
    hide *;
  }

  lemma OpensAfter(b: string, before: string, c: char)
    requires Feed(State(false, b), before) == (State(false, b + before), "") && Opens(b + before + [c])
    ensures Feed(State(false, b), before + [c]) == (State(true, ""), "")
  {
    StepOpens(State(false, b + before), c);
    OneStep(State(false, b + before), c);
    FeedAppend(State(false, b), before, [c]);
    hide *;
    SentNothing(Feed(State(false, b + before), [c]));
  }

  lemma FlushesAfter(b: string, before: string, c: char, after: string)
    requires Feed(State(false, b), before) == (State(false, b + before), "") && !Opens(b + before + [c])
             && |b + before| >= HOLD
    requires Feed(START, after) == (START, after)
    ensures Feed(State(false, b), before + ([c] + after)) == (START, b + before + [c] + after)
  {
    StepFlushes(State(false, b + before), c);
    OneStep(State(false, b + before), c);
    FeedAppend(State(false, b), before, [c] + after);
    FeedAppend(State(false, b + before), [c], after);
    hide *;
    SentAll(b + before + [c], after);
    SentNothing(Feed(State(false, b + before), [c] + after));
  }

  lemma SentNothing(r: (State, string))
    ensures Sent("", r) == r
  {
    assert "" + r.1 == r.1;
  }

  lemma TagOpens(b: string, tag: string)
    requires IsTag(tag)
    ensures Opens(b + tag)
  {
    assert (b + tag)[|b + tag| - |tag|..] == tag;
  }

  lemma StepOpens(s: State, c: char)
    requires !s.inside && Opens(s.buf + [c])
    ensures Step(s, c) == (State(true, ""), "")
  {
  }

  lemma StepFlushes(s: State, c: char)
    requires !s.inside && !Opens(s.buf + [c]) && |s.buf| >= HOLD
    ensures Step(s, c) == (START, s.buf + [c])
  {
  }

  lemma TagMissed(b: string, tag: string)
    requires IsTag(tag) && Holding(State(false, b)) && |b| + |tag| - 1 > HOLD
    ensures Feed(State(false, b), tag) == (START, b + tag)
  {
    hide IsTag;
    TagShape(tag);
    var k := HOLD - |b|;
    HoldTag(b, tag, k);
    NotYetOpen(b, tag, k + 1);
    TagTail(tag, k + 1);
    hide *;
    Pieces(b, tag, k);
    FlushesAfter(b, tag[..k], tag[k], tag[k + 1..]);
  }

  lemma Pieces(b: string, tag: string, k: nat)
    requires k < |tag|
    ensures tag[..k] + ([tag[k]] + tag[k + 1..]) == tag && b + tag[..k] + [tag[k]] == b + tag[..k + 1]
    ensures b + tag[..k + 1] + tag[k + 1..] == b + tag
  {
  }

  lemma TagTail(tag: string, k: nat)
    requires IsTag(tag) && 0 < k <= |tag|
    ensures Feed(START, tag[k..]) == (START, tag[k..])
  {
    hide IsTag;
    TagShape(tag);
    PlainPasses(tag[k..]);
  }

  lemma SentAll(out: string, after: string)
    ensures Sent(out, (START, after)) == (START, out + after)
  {
  }

  lemma OpensEnd(s: string)
    requires Opens(s)
    ensures s != [] && s[|s| - 1] == '>'
  {
    assert EndsWith(s, "<thinking>") ==> s[|s| - 10..][9] == '>';
    assert EndsWith(s, "<think>") ==> s[|s| - 7..][6] == '>';
  }

  /** Before its last character no part of an opening tag completes one. */
  lemma NotYetOpen(b: string, tag: string, k: nat)
    requires IsTag(tag) && 0 < k < |tag|
    ensures !Opens(b + tag[..k])
  {
    hide IsTag;
    TagShape(tag);
    var s := b + tag[..k];
    assert s[|s| - 1] == tag[k - 1] != '>';
    if Opens(s) {
      OpensEnd(s);
      assert false;
    }
  }

  lemma HasAngle(b: string, tag: string, k: nat)
    requires IsTag(tag) && 0 < k <= |tag|
    ensures '<' in b + tag[..k]
  {
    hide IsTag;
    TagShape(tag);
    assert (b + tag[..k])[|b|] == tag[0] == '<';
  }

  lemma {:induction false} HoldTag(b: string, tag: string, k: nat)
    requires IsTag(tag) && Holding(State(false, b)) && k < |tag| && |b| + k <= HOLD
    ensures Feed(State(false, b), tag[..k]) == (State(false, b + tag[..k]), "")
  {
    hide IsTag;
    TagShape(tag);
    if k == 0 {
      assert tag[..0] == "" && b + "" == b;
    } else {
      HoldTag(b, tag, k - 1);
      assert tag[..k] == tag[..k - 1] + [tag[k - 1]];
      FeedAppend(State(false, b), tag[..k - 1], [tag[k - 1]]);
      OneStep(State(false, b + tag[..k - 1]), tag[k - 1]);
      assert b + tag[..k - 1] + [tag[k - 1]] == b + tag[..k];
      NotYetOpen(b, tag, k);
      HasAngle(b, tag, k);
    }
  }

  /** Text, then a block: its opening tag and the rest up to its first closing tag. */
  datatype Part = Part(text: string, tag: string, rest: string)

  predicate WellFormed(parts: seq<Part>) {
    forall i :: 0 <= i < |parts| ==> NoAngle(parts[i].text) && IsTag(parts[i].tag) && BlockRest(parts[i].rest)
  }

  function Whole(parts: seq<Part>, end: string): string {
    if parts == [] then end else parts[0].text + parts[0].tag + parts[0].rest + Whole(parts[1..], end)
  }

  function Kept(parts: seq<Part>, end: string): string {
    if parts == [] then end else parts[0].text + Kept(parts[1..], end)
  }

  lemma PartPasses(p: Part)
    requires NoAngle(p.text) && IsTag(p.tag) && BlockRest(p.rest)
    ensures Feed(START, p.text + p.tag + p.rest) == (START, p.text)
  {
    hide IsTag;
    TagShape(p.tag);
    FeedAppend(START, p.text + p.tag, p.rest);
    FeedAppend(START, p.text, p.tag);
    PlainPasses(p.text);
    OpeningTag("", p.tag);
    InsideDrops(p.rest, |p.rest|);
    assert p.rest[..|p.rest|] == p.rest;
    assert p.text + "" == p.text;
  }

  /** When `<` occurs only in closed thinking blocks, the output is exactly the text outside the blocks. */
  lemma {:induction false} BlocksAreRemoved(parts: seq<Part>, end: string)
    requires WellFormed(parts) && NoAngle(end)
    ensures Feed(START, Whole(parts, end)) == (START, Kept(parts, end)) && Output(Whole(parts, end)) == Kept(parts, end)
    decreases |parts|
  {
    if parts == [] {
      PlainPasses(end);
      assert end + "" == end;
    } else {
      var p := parts[0];
      PartPasses(p);
      FeedAppend(START, p.text + p.tag + p.rest, Whole(parts[1..], end));
      BlocksAreRemoved(parts[1..], end);
      assert Kept(parts, end) + "" == Kept(parts, end);
    }
  }
}
