/** What stripping leaves of a text with tagged blocks (src/llm/reasoning.rs). */
module TagStrip {
  import opened Wrappers
  import opened Sequences
  import opened TextSearch
  import opened Tags
  import opened TagDocs

  function Prepend(text: string, doc: Doc): Doc {
    doc.(text := text + doc.text)
  }

  /** The document without its blocks of one kind, the pieces around them joined. */
  function Without(doc: Doc, kind: Kind): Doc {
    match doc
    case End(text) => doc
    case Then(text, b, rest) =>
      if b.kind == kind then Prepend(text, Without(rest, kind)) else Then(text, b, Without(rest, kind))
  }

  lemma RenderPrepend(text: string, doc: Doc)
    ensures Render(Prepend(text, doc)) == text + Render(doc)
  {
    if doc.Then? {
      var b := doc.block;
      Regroup(text, doc.text, Open(b.kind) + (b.inner + (Close(b.kind) + Render(doc.rest))));
    }
  }

  // ---------- XML tags ----------

  function Prefixed(a: string, span: Span): Span {
    match span
    case Absent => Absent
    case Unended(before) => Unended(a + before)
    case Unclosed(before) => Unclosed(a + before)
    case Complete(before, rest) => Complete(a + before, rest)
  }

  lemma XmlSpanExact(s: string, i: nat, exact: string, prefix: string, close: string)
    requires Find(s, exact) == Some(i) && !Contains(s, prefix)
    ensures XmlSpan(s, exact, prefix, close) == SpanFrom(s[..i], s[i..], close)
  {
  }

  lemma SpanFromPrefixed(a: string, before: string, after: string, close: string)
    ensures SpanFrom(a + before, after, close) == Prefixed(a, SpanFrom(before, after, close))
  {
  }

  lemma XmlSpanSkip(a: string, s: string, exact: string, prefix: string, close: string)
    requires Find(a + s, exact) == Shift(|a|, Find(s, exact)) && !Contains(a + s, prefix) && !Contains(s, prefix)
    ensures XmlSpan(a + s, exact, prefix, close) == Prefixed(a, XmlSpan(s, exact, prefix, close))
  {
    var start := Find(s, exact);
    if start.Some? {
      var i := start.value;
      DropPrefix(a, s, i);
      XmlSpanExact(s, i, exact, prefix, close);
      XmlSpanExact(a + s, |a| + i, exact, prefix, close);
      SpanFromPrefixed(a, s[..i], s[i..], close);
    }
  }

  lemma SpanEnds(s: string, exact: string, prefix: string, close: string)
    requires !Contains(s, prefix) && exact != "" && exact[|exact| - 1] == '>'
    ensures !XmlSpan(s, exact, prefix, close).Unended?
  {
    var start := Find(s, exact);
    if start.Some? {
      XmlSpanExact(s, start.value, exact, prefix, close);
      BracketFollows(s, exact, start.value);
    }
  }

  lemma BracketFollows(s: string, exact: string, i: nat)
    requires Find(s, exact) == Some(i) && exact != "" && exact[|exact| - 1] == '>'
    ensures Find(s[i..], ">").Some?
  {
    FindFirst(s, exact);
    FindFirst(s[i..], ">");
    assert s[i + |exact| - 1] == s[i..i + |exact|][|exact| - 1] == '>';
    assert s[i..][|exact| - 1..|exact|] == ">";
    assert OccursAt(s[i..], ">", |exact| - 1);
  }

  lemma {:induction false} XmlSkip(a: string, s: string, exact: string, prefix: string, close: string)
    requires Find(a + s, exact) == Shift(|a|, Find(s, exact)) && !Contains(a + s, prefix)
    requires exact != "" && exact[|exact| - 1] == '>'
    ensures StrippedXmlBetween(a + s, exact, prefix, close) == a + StrippedXmlBetween(s, exact, prefix, close)
  {
    SuffixLacks(a + s, prefix, |a|);
    assert (a + s)[|a|..] == s;
    XmlSpanSkip(a, s, exact, prefix, close);
    SpanEnds(s, exact, prefix, close);
    var span := XmlSpan(s, exact, prefix, close);
    if span.Complete? {
      Regroup(a, span.before, StrippedXmlBetween(span.rest, exact, prefix, close));
    }
  }

  lemma BracketEnds(exact: string, s: string)
    requires Marker(exact) && exact[|exact| - 1] == '>'
    ensures Find(exact + s, ">") == Some(|exact| - 1)
  {
    FindFirst(exact + s, ">");
    forall p: nat | p < |exact| - 1 ensures !OccursAt(exact + s, ">", p) {
      assert (exact + s)[p..p + 1][0] == exact[p];
    }
    assert (exact + s)[|exact| - 1..|exact|] == ">";
    assert OccursAt(exact + s, ">", |exact| - 1);
  }

  lemma XmlFirst(exact: string, inner: string, prefix: string, close: string, r: string)
    requires Marker(exact) && exact[|exact| - 1] == '>'
    requires !Contains(exact + (inner + (close + r)), prefix) && Find(inner + (close + r), close) == Some(|inner|)
    ensures XmlSpan(exact + (inner + (close + r)), exact, prefix, close) == Complete("", r)
  {
    var s := exact + (inner + (close + r));
    FindHere(exact, inner + (close + r));
    BracketEnds(exact, inner + (close + r));
    BlockParts(exact, inner, close, r);
    assert s[0..] == s;
  }

  lemma {:induction false} XmlPastBlock(b: Block, r: string, tag: string)
    requires TagOk(b.kind.tag) && TagOk(tag) && b.kind != Xml(tag) && !Contains(b.inner, Open(Xml(tag)))
    requires !Contains(Open(b.kind) + (b.inner + (Close(b.kind) + r)), OpenPrefix(tag))
    ensures StrippedXml(Open(b.kind) + (b.inner + (Close(b.kind) + r)), tag)
            == Open(b.kind) + (b.inner + (Close(b.kind) + StrippedXml(r, tag)))
  {
    var exact, prefix, close := Open(Xml(tag)), OpenPrefix(tag), Close(Xml(tag));
    MarkersOf(tag);
    MarkersDiffer(Xml(tag), b.kind);
    FindPastBlock(b, r, exact);
    var s3 := Close(b.kind) + r;
    var s2 := b.inner + s3;
    SuffixLacks(Open(b.kind) + s2, prefix, |Open(b.kind)|);
    assert (Open(b.kind) + s2)[|Open(b.kind)|..] == s2;
    SuffixLacks(s2, prefix, |b.inner|);
    assert s2[|b.inner|..] == s3;
    XmlEndsInBracket(tag);
    XmlSkip(Open(b.kind), s2, exact, prefix, close);
    XmlSkip(b.inner, s3, exact, prefix, close);
    XmlSkip(Close(b.kind), r, exact, prefix, close);
  }

  lemma XmlEndsInBracket(tag: string)
    ensures Open(Xml(tag))[|Open(Xml(tag))| - 1] == '>'
  {
  }

  lemma {:induction false} XmlBlock(b: Block, r: string)
    requires TagOk(b.kind.tag) && b.kind.Xml? && !Contains(b.inner, Close(b.kind))
    requires !Contains(Open(b.kind) + (b.inner + (Close(b.kind) + r)), OpenPrefix(b.kind.tag))
    ensures StrippedXml(Open(b.kind) + (b.inner + (Close(b.kind) + r)), b.kind.tag) == StrippedXml(r, b.kind.tag)
  {
    MarkersOf(b.kind.tag);
    XmlEndsInBracket(b.kind.tag);
    FindClose(b, r);
    XmlFirst(Open(b.kind), b.inner, OpenPrefix(b.kind.tag), Close(b.kind), r);
    EmptyPrefix(StrippedXml(r, b.kind.tag));
  }

  /** One pass over the XML form of a tag removes exactly its blocks. */
  lemma {:induction false} XmlPassRemovesBlocks(doc: Doc, tag: string)
    requires WellTagged(doc) && TagOk(tag) && Lacks(doc, Open(Xml(tag))) && Lacks(doc, OpenPrefix(tag))
    ensures StrippedXml(Render(doc), tag) == Render(Without(doc, Xml(tag)))
    decreases doc
  {
    match doc
    case End(text) =>
    case Then(text, b, rest) =>
      var kind, r := Xml(tag), Render(rest);
      var s1 := Open(b.kind) + (b.inner + (Close(b.kind) + r));
      assert b in Blocks(doc);
      MarkersOf(tag);
      MarkersOf(b.kind.tag);
      XmlEndsInBracket(tag);
      PrefixAbsent(doc, tag);
      FindAfterText(text, s1, Open(kind));
      XmlSkip(text, s1, Open(kind), OpenPrefix(tag), Close(kind));
      SuffixLacks(text + s1, OpenPrefix(tag), |text|);
      assert (text + s1)[|text|..] == s1;
      XmlPassRemovesBlocks(rest, tag);
      if b.kind == kind {
        XmlBlock(b, r);
        RenderPrepend(text, Without(rest, kind));
      } else {
        XmlPastBlock(b, r, tag);
      }
  }

  lemma PrefixAbsent(doc: Doc, tag: string)
    requires WellTagged(doc) && TagOk(tag) && Lacks(doc, OpenPrefix(tag))
    ensures !Contains(Render(doc), OpenPrefix(tag))
  {
    MarkersOf(tag);
    forall b | b in Blocks(doc) ensures OpenPrefix(tag) != Open(b.kind) && OpenPrefix(tag) != Close(b.kind) {
      MarkersDiffer(Xml(tag), b.kind);
    }
    RenderLacks(doc, OpenPrefix(tag));
  }

  // ---------- pipe tags ----------

  lemma PipeSpanSkip(a: string, s: string, open: string, close: string)
    requires Find(a + s, open) == Shift(|a|, Find(s, open))
    ensures PipeSpan(a + s, open, close) == Prefixed(a, PipeSpan(s, open, close))
  {
    var start := Find(s, open);
    if start.Some? {
      DropPrefix(a, s, start.value);
    }
  }

  lemma {:induction false} PipeSkip(a: string, s: string, open: string, close: string)
    requires Find(a + s, open) == Shift(|a|, Find(s, open)) && close != ""
    ensures StrippedPipeBetween(a + s, open, close) == a + StrippedPipeBetween(s, open, close)
  {
    PipeSpanSkip(a, s, open, close);
    var span := PipeSpan(s, open, close);
    if span.Complete? {
      Regroup(a, span.before, StrippedPipeBetween(span.rest, open, close));
    }
  }

  lemma PipeFirst(open: string, inner: string, close: string, r: string)
    requires Find(open + (inner + (close + r)), open) == Some(0)
    requires Find(open + (inner + (close + r)), close) == Some(|open| + |inner|)
    ensures PipeSpan(open + (inner + (close + r)), open, close) == Complete("", r)
  {
    var s := open + (inner + (close + r));
    BlockParts(open, inner, close, r);
    DropPrefix(open, inner + (close + r), |inner| + |close|);
    assert s[0..] == s;
  }

  lemma {:induction false} PipeFirstGone(open: string, inner: string, close: string, r: string)
    requires close != "" && Find(open + (inner + (close + r)), open) == Some(0)
    requires Find(open + (inner + (close + r)), close) == Some(|open| + |inner|)
    ensures StrippedPipeBetween(open + (inner + (close + r)), open, close) == StrippedPipeBetween(r, open, close)
  {
    PipeFirst(open, inner, close, r);
    EmptyPrefix(StrippedPipeBetween(r, open, close));
  }

  lemma FindCloseFromOpen(b: Block, r: string)
    requires TagOk(b.kind.tag) && !Contains(b.inner, Close(b.kind))
    ensures Find(Open(b.kind) + (b.inner + (Close(b.kind) + r)), Close(b.kind)) == Some(|Open(b.kind)| + |b.inner|)
  {
    MarkersOf(b.kind.tag);
    MarkersDiffer(b.kind, b.kind);
    FindClose(b, r);
    FindAfterMarker(Open(b.kind), b.inner + (Close(b.kind) + r), Close(b.kind));
  }

  lemma {:induction false} PipeBlock(b: Block, r: string)
    requires TagOk(b.kind.tag) && b.kind.Pipe? && !Contains(b.inner, Close(b.kind))
    ensures StrippedPipe(Open(b.kind) + (b.inner + (Close(b.kind) + r)), b.kind.tag) == StrippedPipe(r, b.kind.tag)
  {
    FindHere(Open(b.kind), b.inner + (Close(b.kind) + r));
    FindCloseFromOpen(b, r);
    PipeFirstGone(Open(b.kind), b.inner, Close(b.kind), r);
  }

  lemma {:induction false} PipePastBlock(b: Block, r: string, tag: string)
    requires TagOk(b.kind.tag) && TagOk(tag) && b.kind != Pipe(tag) && !Contains(b.inner, Open(Pipe(tag)))
    ensures StrippedPipe(Open(b.kind) + (b.inner + (Close(b.kind) + r)), tag)
            == Open(b.kind) + (b.inner + (Close(b.kind) + StrippedPipe(r, tag)))
  {
    var open, close := Open(Pipe(tag)), Close(Pipe(tag));
    MarkersOf(tag);
    MarkersDiffer(Pipe(tag), b.kind);
    FindPastBlock(b, r, open);
    var s3 := Close(b.kind) + r;
    PipeSkip(Open(b.kind), b.inner + s3, open, close);
    PipeSkip(b.inner, s3, open, close);
    PipeSkip(Close(b.kind), r, open, close);
  }

  /** One pass over the pipe form of a tag removes exactly its blocks. */
  lemma {:induction false} PipePassRemovesBlocks(doc: Doc, tag: string)
    requires WellTagged(doc) && TagOk(tag) && Lacks(doc, Open(Pipe(tag)))
    ensures StrippedPipe(Render(doc), tag) == Render(Without(doc, Pipe(tag)))
    decreases doc
  {
    match doc
    case End(text) =>
    case Then(text, b, rest) =>
      var kind, r := Pipe(tag), Render(rest);
      var s1 := Open(b.kind) + (b.inner + (Close(b.kind) + r));
      assert b in Blocks(doc);
      MarkersOf(tag);
      MarkersOf(b.kind.tag);
      FindAfterText(text, s1, Open(kind));
      PipeSkip(text, s1, Open(kind), Close(kind));
      PipePassRemovesBlocks(rest, tag);
      if b.kind == kind {
        PipeBlock(b, r);
        RenderPrepend(text, Without(rest, kind));
      } else {
        PipePastBlock(b, r, tag);
      }
  }

  // ---------- the whole pass ----------

  lemma {:induction false} WithoutKeeps(doc: Doc, kind: Kind)
    ensures Joined(Without(doc, kind)) == Joined(doc)
    ensures forall b | b in Blocks(Without(doc, kind)) :: b in Blocks(doc) && b.kind != kind
    decreases doc
  {
    match doc
    case End(text) =>
    case Then(text, b, rest) =>
      WithoutKeeps(rest, kind);
      JoinedPrepend(text, Without(rest, kind));
  }

  lemma JoinedPrepend(text: string, doc: Doc)
    ensures Joined(Prepend(text, doc)) == text + Joined(doc) && Blocks(Prepend(text, doc)) == Blocks(doc)
  {
    if doc.Then? {
      Regroup(text, doc.text, Joined(doc.rest));
    }
  }

  /** If every kind was removed, the joined pieces remain. */
  lemma {:induction false} NoBlocksLeft(doc: Doc)
    requires Blocks(doc) == []
    ensures Render(doc) == Joined(doc)
  {
  }

  /** One pass over a text whose blocks all have that form leaves exactly the plain pieces joined. */
  lemma {:induction false} OnePassLeavesPieces(doc: Doc, kind: Kind)
    requires WellTagged(doc) && TagOk(kind.tag) && Lacks(doc, Open(kind))
    requires kind.Xml? ==> Lacks(doc, OpenPrefix(kind.tag))
    requires forall b | b in Blocks(doc) :: b.kind == kind
    ensures (if kind.Xml? then StrippedXml(Render(doc), kind.tag) else StrippedPipe(Render(doc), kind.tag))
            == Joined(doc)
  {
    WithoutKeeps(doc, kind);
    var bare := Without(doc, kind);
    HeadIsMember(Blocks(bare));
    NoBlocksLeft(bare);
    if kind.Xml? {
      XmlPassRemovesBlocks(doc, kind.tag);
    } else {
      PipePassRemovesBlocks(doc, kind.tag);
    }
  }

  /** No opening of the tag, in any form. */
  predicate FreeOf(s: string, tag: string) {
    !Contains(s, Open(Xml(tag))) && !Contains(s, OpenPrefix(tag)) && !Contains(s, Open(Pipe(tag)))
  }

  predicate Clean(doc: Doc, tag: string) {
    FreeOf(Joined(doc), tag) && forall b | b in Blocks(doc) :: FreeOf(b.inner, tag)
  }

  lemma {:induction false} CleanLacks(doc: Doc, w: string)
    requires !Contains(Joined(doc), w) && forall b | b in Blocks(doc) :: !Contains(b.inner, w)
    ensures Lacks(doc, w)
    decreases doc
  {
    match doc
    case End(text) =>
    case Then(text, b, rest) =>
      assert b in Blocks(doc) && forall x | x in Blocks(rest) :: x in Blocks(doc);
      PrefixLacks(text + Joined(rest), w, |text|);
      SuffixLacks(text + Joined(rest), w, |text|);
      assert (text + Joined(rest))[..|text|] == text && (text + Joined(rest))[|text|..] == Joined(rest);
      CleanLacks(rest, w);
  }

  function WithoutTag(doc: Doc, tag: string): Doc {
    Without(Without(doc, Xml(tag)), Pipe(tag))
  }

  lemma TagPass(doc: Doc, tag: string)
    requires WellTagged(doc) && TagOk(tag) && Clean(doc, tag)
    ensures StrippedPipe(StrippedXml(Render(doc), tag), tag) == Render(WithoutTag(doc, tag))
  {
    CleanLacks(doc, Open(Xml(tag)));
    CleanLacks(doc, OpenPrefix(tag));
    XmlPassRemovesBlocks(doc, tag);
    var half := Without(doc, Xml(tag));
    WithoutKeeps(doc, Xml(tag));
    CleanLacks(half, Open(Pipe(tag)));
    PipePassRemovesBlocks(half, tag);
  }

  function WithoutTags(doc: Doc, tags: seq<string>): Doc {
    if tags == [] then doc else WithoutTag(WithoutTags(doc, tags[..|tags| - 1]), tags[|tags| - 1])
  }

  lemma WithoutTagKeeps(doc: Doc, tag: string)
    ensures Joined(WithoutTag(doc, tag)) == Joined(doc)
    ensures forall b | b in Blocks(WithoutTag(doc, tag)) :: b in Blocks(doc) && b.kind.tag != tag
  {
    WithoutKeeps(doc, Xml(tag));
    WithoutKeeps(Without(doc, Xml(tag)), Pipe(tag));
  }

  lemma {:induction false} TagsPass(doc: Doc, tags: seq<string>)
    requires WellTagged(doc) && forall t | t in tags :: TagOk(t) && Clean(doc, t)
    ensures StrippedTags(Render(doc), tags) == Render(WithoutTags(doc, tags))
    ensures Joined(WithoutTags(doc, tags)) == Joined(doc)
    ensures forall b | b in Blocks(WithoutTags(doc, tags)) :: b in Blocks(doc) && b.kind.tag !in tags
  {
    if tags != [] {
      var front, tag := tags[..|tags| - 1], tags[|tags| - 1];
      assert tag in tags && tags == front + [tag];
      TagsPass(doc, front);
      var half := WithoutTags(doc, front);
      TagPass(half, tag);
      WithoutTagKeeps(half, tag);
    }
  }

  lemma ThinkingTag()
    ensures TagOk("thinking")
  {
  }

  lemma ToolCallsTag()
    ensures TagOk("tool_calls")
  {
  }

  lemma InternalTagsOk()
    ensures forall t | t in INTERNAL_TAGS :: TagOk(t)
  {
    ThinkingTag();
    ToolCallTag();
    FunctionCallTag();
    ToolCallsTag();
  }

  /** All passes together leave exactly the plain pieces joined: every internal block is gone, of either
      form and any tag, and nothing else is. */
  lemma {:induction false} UserSeesPieces(doc: Doc)
    requires WellTagged(doc) && forall t | t in INTERNAL_TAGS :: Clean(doc, t)
    requires forall b | b in Blocks(doc) :: b.kind.tag in INTERNAL_TAGS
    ensures StrippedTags(Render(doc), INTERNAL_TAGS) == Joined(doc)
  {
    InternalTagsOk();
    TagsPass(doc, INTERNAL_TAGS);
    var bare := WithoutTags(doc, INTERNAL_TAGS);
    HeadIsMember(Blocks(bare));
    NoBlocksLeft(bare);
  }

  // ---------- malformed blocks ----------

  /** A block that never closes takes the rest of the text with it. */
  lemma {:induction false} UnclosedXmlTakesRest(text: string, tag: string, rest: string)
    requires TagOk(tag) && !Contains(text, Open(Xml(tag)))
    requires !Contains(text + (Open(Xml(tag)) + rest), OpenPrefix(tag)) && !Contains(rest, Close(Xml(tag)))
    ensures StrippedXml(text + (Open(Xml(tag)) + rest), tag) == text
  {
    var exact, prefix, close := Open(Xml(tag)), OpenPrefix(tag), Close(Xml(tag));
    MarkersOf(tag);
    XmlEndsInBracket(tag);
    FindAfterText(text, exact + rest, exact);
    FindHere(exact, rest);
    XmlSkip(text, exact + rest, exact, prefix, close);
    SuffixLacks(text + (exact + rest), prefix, |text|);
    assert (text + (exact + rest))[|text|..] == exact + rest;
    BracketEnds(exact, rest);
    assert (exact + rest)[0..] == exact + rest && (exact + rest)[|exact|..] == rest && (exact + rest)[..0] == "";
    assert XmlSpan(exact + rest, exact, prefix, close) == Unclosed("");
    assert text + "" == text;
  }

  lemma {:induction false} UnclosedPipeTakesRest(text: string, tag: string, rest: string)
    requires TagOk(tag) && !Contains(text, Open(Pipe(tag))) && !Contains(Open(Pipe(tag)) + rest, Close(Pipe(tag)))
    ensures StrippedPipe(text + (Open(Pipe(tag)) + rest), tag) == text
  {
    var open, close := Open(Pipe(tag)), Close(Pipe(tag));
    MarkersOf(tag);
    FindAfterText(text, open + rest, open);
    FindHere(open, rest);
    PipeSkip(text, open + rest, open, close);
    assert (open + rest)[0..] == open + rest && (open + rest)[..0] == "";
    assert PipeSpan(open + rest, open, close) == Unclosed("");
    assert text + "" == text;
  }

  /** An opening with attributes that never ends: the text before it comes out twice. */
  lemma {:induction false} UnendedRepeatsPrefix(text: string, tag: string, rest: string)
    requires TagOk(tag) && !Contains(text, OpenPrefix(tag)) && !Contains(text + (OpenPrefix(tag) + rest),
             Open(Xml(tag)))
    requires !Contains(OpenPrefix(tag) + rest, ">")
    ensures StrippedXml(text + (OpenPrefix(tag) + rest), tag) == text + (text + (OpenPrefix(tag) + rest))
  {
    var prefix := OpenPrefix(tag);
    MarkersOf(tag);
    FindAfterText(text, prefix + rest, prefix);
    FindHere(prefix, rest);
    DropPrefix(text, prefix + rest, 0);
    assert text + (prefix + rest)[..0] == text;
    assert XmlSpan(text + (prefix + rest), Open(Xml(tag)), prefix, Close(Xml(tag))) == Unended(text);
  }

  /** A text without any opening of the tag is not touched. */
  lemma {:induction false} NothingToStrip(s: string, tag: string)
    requires FreeOf(s, tag)
    ensures StrippedXml(s, tag) == s && StrippedPipe(s, tag) == s
  {
  }
}
