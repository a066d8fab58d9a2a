/** Texts that interleave plain pieces with tagged blocks: what recovery finds in them and what
    stripping leaves of them (src/llm/reasoning.rs). */
module TagDocs {
  import opened Wrappers
  import opened Filtering
  import opened Chat
  import opened TextSearch
  import opened Tags

  datatype Block = Block(kind: Kind, inner: string)

  /** Plain text, or plain text followed by a block and more. */
  datatype Doc = End(text: string) | Then(text: string, block: Block, rest: Doc)

  function Render(doc: Doc): string {
    match doc
    case End(text) => text
    case Then(text, b, rest) => text + (Open(b.kind) + (b.inner + (Close(b.kind) + Render(rest))))
  }

  function Blocks(doc: Doc): seq<Block> {
    match doc
    case End(text) => []
    case Then(text, b, rest) => [b] + Blocks(rest)
  }

  /** The plain pieces, joined. */
  function Joined(doc: Doc): string {
    match doc
    case End(text) => text
    case Then(text, b, rest) => text + Joined(rest)
  }

  // ---------- markers ----------

  predicate EndsTag(c: char) {
    c == '>' || c == ' '
  }

  /** Opens with the only `<` and closes with the only `>` or space. */
  predicate Marker(w: string) {
    && |w| >= 2 && w[0] == '<' && EndsTag(w[|w| - 1])
    && (forall i | 0 < i < |w| :: w[i] != '<')
    && (forall i | 0 <= i < |w| - 1 :: !EndsTag(w[i]))
  }

  predicate TagOk(tag: string) {
    tag != "" && forall c | c in tag :: c != '<' && c != '|' && c != '/' && !EndsTag(c)
  }

  lemma BracketMarker(open: string, tag: string, close: string)
    requires TagOk(tag)
    requires open == "<" || open == "</" || open == "<|" || open == "<|/"
    requires close == ">" || close == " " || close == "|>"
    ensures Marker(open + tag + close)
  {
    var w := open + tag + close;
    forall i | 0 < i < |w| ensures w[i] != '<' && (i < |w| - 1 ==> !EndsTag(w[i])) {
      if |open| <= i < |open| + |tag| {
        assert w[i] == tag[i - |open|] && tag[i - |open|] in tag;
      }
    }
  }

  lemma MarkersOf(tag: string)
    requires TagOk(tag)
    ensures Marker(Open(Xml(tag))) && Marker(Close(Xml(tag))) && Marker(OpenPrefix(tag))
    ensures Marker(Open(Pipe(tag))) && Marker(Close(Pipe(tag)))
  {
    BracketMarker("<", tag, ">");
    BracketMarker("</", tag, ">");
    BracketMarker("<", tag, " ");
    BracketMarker("<|", tag, "|>");
    BracketMarker("<|/", tag, "|>");
  }

  /** Different kinds have different markers, and no opening is a closing. */
  lemma {:induction false} MarkersDiffer(a: Kind, b: Kind)
    requires TagOk(a.tag) && TagOk(b.tag)
    ensures Open(a) != Close(b) && OpenPrefix(a.tag) != Open(b) && OpenPrefix(a.tag) != Close(b)
    ensures a != b ==> Open(a) != Open(b)
  {
    assert OpenPrefix(a.tag)[|OpenPrefix(a.tag)| - 1] == ' ';
    assert Open(b)[|Open(b)| - 1] == '>' && Close(b)[|Close(b)| - 1] == '>';
    assert b.Xml? ==> Close(b)[1] == '/';
    assert b.Pipe? ==> Close(b)[1] == '|' && Close(b)[2] == '/';
    OpenSecond(a);
    OpenSecond(b);
  }

  lemma OpenSecond(k: Kind)
    requires TagOk(k.tag)
    ensures k.Xml? ==> Open(k)[1] == k.tag[0] && Open(k)[1..|Open(k)| - 1] == k.tag
    ensures k.Pipe? ==> Open(k)[1] == '|' && Open(k)[2] == k.tag[0] && Open(k)[2..|Open(k)| - 2] == k.tag
    ensures k.tag[0] in k.tag
  {
  }

  function Shift(n: nat, p: Option<nat>): Option<nat> {
    if p.None? then None else Some(n + p.value)
  }

  lemma {:induction false} FindShift(a: string, b: string, w: string)
    requires forall p: nat | p < |a| :: !OccursAt(a + b, w, p)
    ensures Find(a + b, w) == Shift(|a|, Find(b, w))
  {
    FindFirst(a + b, w);
    FindFirst(b, w);
    assert (a + b)[|a|..] == b;
    forall p: nat ensures OccursAt(b, w, p) <==> OccursAt(a + b, w, |a| + p) {
      SuffixOccurs(a + b, w, |a|, p);
    }
    var here, there := Find(a + b, w), Find(b, w);
    if here.Some? {
      assert here.value >= |a|;
      assert OccursAt(b, w, here.value - |a|);
    }
  }

  /** A marker cannot straddle a text and a following `<`. */
  lemma NoStraddle(a: string, b: string, w: string, p: nat)
    requires Marker(w) && p < |a| && !OccursAt(a, w, p) && (b == "" || b[0] == '<')
    ensures !OccursAt(a + b, w, p)
  {
    if p + |w| <= |a| {
      assert (a + b)[p..p + |w|] == a[p..p + |w|];
    } else if p + |w| <= |a + b| {
      assert (a + b)[p..p + |w|][|a| - p] == b[0];
    }
  }

  lemma FindAfterText(a: string, b: string, w: string)
    requires Marker(w) && !Contains(a, w) && (b == "" || b[0] == '<')
    ensures Find(a + b, w) == Shift(|a|, Find(b, w))
  {
    FindFirst(a, w);
    forall p: nat | p < |a| ensures !OccursAt(a + b, w, p) {
      NoStraddle(a, b, w, p);
    }
    FindShift(a, b, w);
  }

  /** Two different markers never begin at the same place. */
  lemma FindAfterMarker(v: string, b: string, w: string)
    requires Marker(v) && Marker(w) && v != w
    ensures Find(v + b, w) == Shift(|v|, Find(b, w))
  {
    forall p: nat | p < |v| ensures !OccursAt(v + b, w, p) {
      if OccursAt(v + b, w, p) {
        assert (v + b)[p..p + |w|][0] == v[p];
        assert p == 0;
        MarkersClash(v, b, w);
      }
    }
    FindShift(v, b, w);
  }

  lemma MarkersClash(v: string, b: string, w: string)
    requires Marker(v) && Marker(w) && OccursAt(v + b, w, 0)
    ensures v == w
  {
    assert forall i | 0 <= i < |w| :: w[i] == (v + b)[0..|w|][i] == (v + b)[i];
    var n := if |v| < |w| then |v| else |w|;
    assert w[n - 1] == v[n - 1];
    assert |v| == |w|;
  }

  lemma FindHere(w: string, b: string)
    ensures Find(w + b, w) == Some(0)
  {
    FindFirst(w + b, w);
    assert OccursAt(w + b, w, 0);
  }

  lemma DropPrefix<T>(a: seq<T>, b: seq<T>, k: nat)
    requires k <= |b|
    ensures (a + b)[|a| + k..] == b[k..]
    ensures (a + b)[..|a| + k] == a + b[..k]
  {
  }

  // ---------- well-formed documents ----------

  /** The blocks' own closing tags are the ones that close them. */
  predicate WellTagged(doc: Doc) {
    forall b | b in Blocks(doc) :: TagOk(b.kind.tag) && !Contains(b.inner, Close(b.kind))
  }

  /** Neither a piece nor the inside of a block contains `w`. */
  predicate Lacks(doc: Doc, w: string) {
    !Contains(doc.text, w) && (doc.Then? ==> !Contains(doc.block.inner, w) && Lacks(doc.rest, w))
  }

  lemma FindPastBlock(b: Block, r: string, w: string)
    requires TagOk(b.kind.tag) && Marker(w) && w != Open(b.kind) && w != Close(b.kind) && !Contains(b.inner, w)
    ensures var s3 := Close(b.kind) + r;
            var s2 := b.inner + s3;
            && Find(Open(b.kind) + s2, w) == Shift(|Open(b.kind)|, Find(s2, w))
            && Find(s2, w) == Shift(|b.inner|, Find(s3, w))
            && Find(s3, w) == Shift(|Close(b.kind)|, Find(r, w))
  {
    MarkersOf(b.kind.tag);
    var s3 := Close(b.kind) + r;
    FindAfterMarker(Open(b.kind), b.inner + s3, w);
    FindAfterText(b.inner, s3, w);
    FindAfterMarker(Close(b.kind), r, w);
  }

  lemma FindClose(b: Block, r: string)
    requires TagOk(b.kind.tag) && !Contains(b.inner, Close(b.kind))
    ensures Find(b.inner + (Close(b.kind) + r), Close(b.kind)) == Some(|b.inner|)
  {
    MarkersOf(b.kind.tag);
    FindAfterText(b.inner, Close(b.kind) + r, Close(b.kind));
    FindHere(Close(b.kind), r);
  }

  /** A marker of no block, absent from all pieces, is absent from the text. */
  lemma {:induction false} RenderLacks(doc: Doc, w: string)
    requires WellTagged(doc) && Lacks(doc, w) && Marker(w)
    requires forall b | b in Blocks(doc) :: w != Open(b.kind) && w != Close(b.kind)
    ensures !Contains(Render(doc), w)
  {
    match doc
    case End(text) =>
    case Then(text, b, rest) =>
      assert b in Blocks(doc);
      RenderLacks(rest, w);
      var s1 := Open(b.kind) + (b.inner + (Close(b.kind) + Render(rest)));
      MarkersOf(b.kind.tag);
      FindAfterText(text, s1, w);
      FindPastBlock(b, Render(rest), w);
  }

  // ---------- recovery ----------

  function OfKind(kind: Kind): Block -> bool {
    (b: Block) => b.kind == kind
  }

  function AddedAll(calls: seq<ToolCall>, blocks: seq<Block>, known: set<string>, parse: Parser): seq<ToolCall> {
    if blocks == [] then calls
    else Added(AddedAll(calls, blocks[..|blocks| - 1], known, parse),
      Interpret(blocks[|blocks| - 1].inner, known, parse))
  }

  lemma {:induction false} AddedAllConcat(
    calls: seq<ToolCall>, a: seq<Block>, b: seq<Block>, known: set<string>, parse: Parser)
    ensures AddedAll(calls, a + b, known, parse) == AddedAll(AddedAll(calls, a, known, parse), b, known, parse)
  {
    if b == [] {
      assert a + b == a;
    } else {
      assert (a + b)[..|a + b| - 1] == a + b[..|b| - 1];
      AddedAllConcat(calls, a, b[..|b| - 1], known, parse);
    }
  }

  lemma BlockSkip(a: string, s: string, open: string, close: string)
    requires Find(a + s, open) == Shift(|a|, Find(s, open))
    ensures NextBlock(a + s, open, close) == NextBlock(s, open, close)
  {
    var start := Find(s, open);
    if start.Some? {
      DropPrefix(a, s, start.value + |open|);
    }
  }

  lemma {:induction false} RecoverSkip(a: string, s: string, open: string, close: string,
                                       known: set<string>, parse: Parser, calls: seq<ToolCall>)
    requires open != "" && Find(a + s, open) == Shift(|a|, Find(s, open))
    ensures RecoverBetween(a + s, open, close, known, parse, calls)
            == RecoverBetween(s, open, close, known, parse, calls)
  {
    BlockSkip(a, s, open, close);
  }

  lemma {:induction false} RecoverBlock(b: Block, r: string, known: set<string>, parse: Parser, calls: seq<ToolCall>)
    requires TagOk(b.kind.tag) && !Contains(b.inner, Close(b.kind))
    ensures RecoverKind(Open(b.kind) + (b.inner + (Close(b.kind) + r)), b.kind, known, parse, calls)
            == RecoverKind(r, b.kind, known, parse, Added(calls, Interpret(b.inner, known, parse)))
  {
    FindClose(b, r);
    FindHere(Open(b.kind), b.inner + (Close(b.kind) + r));
    FirstBlock(Open(b.kind), b.inner, Close(b.kind), r);
  }

  lemma BlockParts(open: string, inner: string, close: string, r: string)
    ensures (open + (inner + (close + r)))[|open|..] == inner + (close + r)
    ensures (inner + (close + r))[..|inner|] == inner
    ensures (inner + (close + r))[|inner| + |close|..] == r
  {
    DropPrefix(inner, close + r, |close|);
  }

  lemma FirstBlock(open: string, inner: string, close: string, r: string)
    requires Find(open + (inner + (close + r)), open) == Some(0) && Find(inner + (close + r), close) == Some(|inner|)
    ensures NextBlock(open + (inner + (close + r)), open, close) == Some((inner, r))
  {
    BlockParts(open, inner, close, r);
  }

  lemma {:induction false} RecoverPastBlock(
    b: Block, r: string, kind: Kind, known: set<string>, parse: Parser, calls: seq<ToolCall>)
    requires TagOk(b.kind.tag) && TagOk(kind.tag) && b.kind != kind && !Contains(b.inner, Open(kind))
    ensures RecoverKind(Open(b.kind) + (b.inner + (Close(b.kind) + r)), kind, known, parse, calls)
            == RecoverKind(r, kind, known, parse, calls)
  {
    MarkersOf(kind.tag);
    MarkersDiffer(kind, b.kind);
    FindPastBlock(b, r, Open(kind));
    var s3 := Close(b.kind) + r;
    var s2 := b.inner + s3;
    RecoverSkip(Open(b.kind), s2, Open(kind), Close(kind), known, parse, calls);
    RecoverSkip(b.inner, s3, Open(kind), Close(kind), known, parse, calls);
    RecoverSkip(Close(b.kind), r, Open(kind), Close(kind), known, parse, calls);
  }

  /** Looking for one kind finds the blocks of that kind, in order. */
  lemma {:induction false} RecoverDoc(doc: Doc, kind: Kind, known: set<string>, parse: Parser, calls: seq<ToolCall>)
    requires WellTagged(doc) && TagOk(kind.tag) && Lacks(doc, Open(kind))
    ensures RecoverKind(Render(doc), kind, known, parse, calls)
            == AddedAll(calls, Filter(Blocks(doc), OfKind(kind)), known, parse)
    decreases doc
  {
    match doc
    case End(text) =>
    case Then(text, b, rest) =>
      assert b in Blocks(doc);
      MarkersOf(kind.tag);
      MarkersOf(b.kind.tag);
      var s1 := Open(b.kind) + (b.inner + (Close(b.kind) + Render(rest)));
      FindAfterText(text, s1, Open(kind));
      RecoverSkip(text, s1, Open(kind), Close(kind), known, parse, calls);
      FilterConcat([b], Blocks(rest), OfKind(kind));
      FilterOne(b, OfKind(kind));
      var head := if b.kind == kind then [b] else [];
      AddedAllConcat(calls, head, Filter(Blocks(rest), OfKind(kind)), known, parse);
      if b.kind == kind {
        RecoverBlock(b, Render(rest), known, parse, calls);
        assert AddedAll(calls, [b], known, parse) == Added(calls, Interpret(b.inner, known, parse)) by {
          assert [b][..0] == [];
        }
        RecoverDoc(rest, kind, known, parse, Added(calls, Interpret(b.inner, known, parse)));
      } else {
        RecoverPastBlock(b, Render(rest), kind, known, parse, calls);
        RecoverDoc(rest, kind, known, parse, calls);
      }
  }

  /** The blocks kind by kind, each kind in document order. */
  function Grouped(blocks: seq<Block>, kinds: seq<Kind>): seq<Block> {
    if kinds == [] then []
    else Grouped(blocks, kinds[..|kinds| - 1]) + Filter(blocks, OfKind(kinds[|kinds| - 1]))
  }

  lemma {:induction false} RecoverKindsDoc(doc: Doc, kinds: seq<Kind>, known: set<string>, parse: Parser)
    requires WellTagged(doc) && forall k | k in kinds :: TagOk(k.tag) && Lacks(doc, Open(k))
    ensures RecoverKinds(Render(doc), kinds, known, parse) == AddedAll([], Grouped(Blocks(doc), kinds), known, parse)
  {
    if kinds != [] {
      var front, kind := kinds[..|kinds| - 1], kinds[|kinds| - 1];
      assert kind in kinds;
      RecoverKindsDoc(doc, front, known, parse);
      RecoverDoc(doc, kind, known, parse, RecoverKinds(Render(doc), front, known, parse));
      AddedAllConcat([], Grouped(Blocks(doc), front), Filter(Blocks(doc), OfKind(kind)), known, parse);
    }
  }

  lemma {:induction false} AllAdded(blocks: seq<Block>, known: set<string>, parse: Parser)
    requires forall b | b in blocks :: Interpret(b.inner, known, parse).Some?
    ensures var calls := AddedAll([], blocks, known, parse);
            && |calls| == |blocks|
            && forall i | 0 <= i < |blocks| ::
                 var call := Interpret(blocks[i].inner, known, parse).value;
                 calls[i] == ToolCall(RecoveredId(i), call.name, call.arguments)
  {
    if blocks != [] {
      assert blocks[|blocks| - 1] in blocks;
      AllAdded(blocks[..|blocks| - 1], known, parse);
    }
  }

  /** A block around the bare name of a known tool. */
  predicate Names(b: Block, known: set<string>, parse: Parser) {
    Trim(b.inner) != "" && Trim(b.inner) in known && (parse(Trim(b.inner)).None?
      || parse(Trim(b.inner)).value.name !in known)
  }

  lemma TrimNothing(s: string)
    requires s == "" || (!IsWhitespace(s[0]) && !IsWhitespace(s[|s| - 1]))
    ensures Trim(s) == s
  {
  }

  lemma TrimTwice(s: string)
    ensures Trim(Trim(s)) == Trim(s)
  {
    var t := TrimStart(s);
    TrimStartDrops(s);
    TrimEndDrops(t);
    assert TrimEnd(t) != "" ==> TrimEnd(t)[0] == t[0];
    TrimNothing(TrimEnd(t));
  }

  lemma NameInterpreted(b: Block, known: set<string>, parse: Parser)
    requires Names(b, known, parse)
    ensures Interpret(b.inner, known, parse) == Some(ParsedCall(Trim(b.inner), NO_ARGUMENTS))
  {
    TrimTwice(b.inner);
  }

  predicate Numbered(calls: seq<ToolCall>, blocks: seq<Block>) {
    && |calls| == |blocks|
    && forall i | 0 <= i < |calls| :: calls[i] == ToolCall(RecoveredId(i), Trim(blocks[i].inner), NO_ARGUMENTS)
  }

  lemma {:induction false} KindsFindNames(doc: Doc, kinds: seq<Kind>, known: set<string>, parse: Parser)
    requires WellTagged(doc) && DistinctKinds(kinds) && forall k | k in kinds :: TagOk(k.tag) && Lacks(doc, Open(k))
    requires forall b | b in Blocks(doc) :: b.kind in kinds && Names(b, known, parse)
    ensures var blocks := Grouped(Blocks(doc), kinds);
            multiset(blocks) == multiset(Blocks(doc)) && Numbered(RecoverKinds(Render(doc), kinds, known, parse),
              blocks)
  {
    var blocks := Grouped(Blocks(doc), kinds);
    RecoverKindsDoc(doc, kinds, known, parse);
    GroupedMembers(Blocks(doc), kinds);
    forall b | b in blocks ensures Interpret(b.inner, known, parse) == Some(ParsedCall(Trim(b.inner), NO_ARGUMENTS)) {
      NameInterpreted(b, known, parse);
    }
    AllAdded(blocks, known, parse);
    assert forall i | 0 <= i < |blocks| :: blocks[i] in blocks;
    GroupedPermutes(Blocks(doc), kinds);
  }

  lemma ToolCallTag()
    ensures TagOk("tool_call")
  {
  }

  lemma FunctionCallTag()
    ensures TagOk("function_call")
  {
  }

  lemma CallKindsOk()
    ensures DistinctKinds(CALL_KINDS) && forall k | k in CALL_KINDS :: TagOk(k.tag)
  {
    ToolCallTag();
    FunctionCallTag();
    var a, b := "tool_call", "function_call";
    assert a[0] != b[0];
    assert CALL_KINDS == [Xml(a), Pipe(a), Xml(b), Pipe(b)];
  }

  predicate DistinctNames(blocks: seq<Block>) {
    forall i, j | 0 <= i < j < |blocks| :: Trim(blocks[i].inner) != Trim(blocks[j].inner)
  }

  /** Calls numbered by two lists of blocks name the same tools in the same places. */
  lemma NumberedBoth(calls: seq<ToolCall>, a: seq<Block>, b: seq<Block>)
    requires Numbered(calls, a) && Numbered(calls, b) && DistinctNames(b)
    requires forall x | x in a :: x in b
    ensures a == b
  {
    forall i | 0 <= i < |a| ensures a[i] == b[i] {
      assert calls[i].name == Trim(a[i].inner) == Trim(b[i].inner);
      assert a[i] in a;
      var j :| 0 <= j < |b| && b[j] == a[i];
    }
  }

  /** Recovery from a text of plain pieces and blocks around known tool names returns exactly those names,
      with ids numbered by position: kind by kind, and within a kind in the order of the text. The calls
      follow the text if no block comes after one of a kind looked for later, and only then when all the
      names differ. */
  lemma {:induction false} RecoveryFindsNames(doc: Doc, known: set<string>, parse: Parser)
    requires WellTagged(doc) && forall k | k in CALL_KINDS :: Lacks(doc, Open(k))
    requires forall b | b in Blocks(doc) :: b.kind in CALL_KINDS && Names(b, known, parse)
    ensures var blocks, calls := Grouped(Blocks(doc), CALL_KINDS), RecoverKinds(Render(doc), CALL_KINDS, known, parse);
            && multiset(blocks) == multiset(Blocks(doc)) && Numbered(calls, blocks)
            && (InKindOrder(Blocks(doc), CALL_KINDS) ==> Numbered(calls, Blocks(doc)))
            && (DistinctNames(Blocks(doc)) && Numbered(calls, Blocks(doc)) ==> InKindOrder(Blocks(doc), CALL_KINDS))
  {
    var kinds := CALL_KINDS;
    CallKindsOk();
    KindsFindNames(doc, kinds, known, parse);
    RecoveryKeepsOrderIff(Blocks(doc), kinds);
    GroupedMembers(Blocks(doc), kinds);
    var calls := RecoverKinds(Render(doc), kinds, known, parse);
    if DistinctNames(Blocks(doc)) && Numbered(calls, Blocks(doc)) {
      NumberedBoth(calls, Grouped(Blocks(doc), kinds), Blocks(doc));
    }
  }

  lemma {:induction false} GroupedMembers(blocks: seq<Block>, kinds: seq<Kind>)
    ensures forall b | b in Grouped(blocks, kinds) :: b in blocks && b.kind in kinds
  {
    if kinds != [] {
      var kind := kinds[|kinds| - 1];
      GroupedMembers(blocks, kinds[..|kinds| - 1]);
      forall b | b in Filter(blocks, OfKind(kind)) ensures b in blocks && b.kind == kind {
        FilterMembers(blocks, OfKind(kind), b);
      }
    }
  }

  predicate DistinctKinds(kinds: seq<Kind>) {
    forall i, j | 0 <= i < j < |kinds| :: kinds[i] != kinds[j]
  }

  lemma {:induction false} FilterCount(blocks: seq<Block>, kind: Kind, b: Block)
    ensures multiset(Filter(blocks, OfKind(kind)))[b] == if b.kind == kind then multiset(blocks)[b] else 0
  {
    if blocks != [] {
      FilterCount(blocks[..|blocks| - 1], kind, b);
      assert blocks == blocks[..|blocks| - 1] + [blocks[|blocks| - 1]];
    }
  }

  lemma {:induction false} GroupedCount(blocks: seq<Block>, kinds: seq<Kind>, b: Block)
    requires DistinctKinds(kinds)
    ensures multiset(Grouped(blocks, kinds))[b] == if b.kind in kinds then multiset(blocks)[b] else 0
  {
    if kinds != [] {
      GroupedCount(blocks, kinds[..|kinds| - 1], b);
      FilterCount(blocks, kinds[|kinds| - 1], b);
      assert kinds == kinds[..|kinds| - 1] + [kinds[|kinds| - 1]];
    }
  }

  lemma {:induction false} GroupedPermutes(blocks: seq<Block>, kinds: seq<Kind>)
    requires DistinctKinds(kinds) && forall b | b in blocks :: b.kind in kinds
    ensures multiset(Grouped(blocks, kinds)) == multiset(blocks)
  {
    forall b ensures multiset(Grouped(blocks, kinds))[b] == multiset(blocks)[b] {
      GroupedCount(blocks, kinds, b);
      if b.kind !in kinds {
        assert b !in blocks;
      }
    }
  }

  // ---------- the order of recovered calls ----------

  function Rank(kinds: seq<Kind>, kind: Kind): nat {
    if kinds == [] then 0 else if kinds[|kinds| - 1] == kind then |kinds| - 1 else Rank(kinds[..|kinds| - 1], kind)
  }

  /** No block comes after one of a kind that is looked for later. */
  predicate InKindOrder(blocks: seq<Block>, kinds: seq<Kind>) {
    forall i, j | 0 <= i < j < |blocks| :: Rank(kinds, blocks[i].kind) <= Rank(kinds, blocks[j].kind)
  }

  lemma {:induction false} RankIs(kinds: seq<Kind>, n: nat)
    requires DistinctKinds(kinds) && n < |kinds|
    ensures Rank(kinds, kinds[n]) == n
  {
    if n < |kinds| - 1 {
      RankIs(kinds[..|kinds| - 1], n);
    }
  }

  /** Grouping puts the kinds in order. */
  lemma {:induction false} GroupedInOrder(blocks: seq<Block>, kinds: seq<Kind>, n: nat)
    requires DistinctKinds(kinds) && n <= |kinds|
    ensures InKindOrder(Grouped(blocks, kinds[..n]), kinds)
    ensures forall b | b in Grouped(blocks, kinds[..n]) :: Rank(kinds, b.kind) < n
  {
    if n > 0 {
      var kind := kinds[n - 1];
      var tail := Filter(blocks, OfKind(kind));
      assert kinds[..n][..n - 1] == kinds[..n - 1];
      GroupedInOrder(blocks, kinds, n - 1);
      RankIs(kinds, n - 1);
      forall b | b in tail ensures Rank(kinds, b.kind) == n - 1 {
        FilterMembers(blocks, OfKind(kind), b);
      }
      OrderConcat(Grouped(blocks, kinds[..n - 1]), tail, kinds, n - 1);
    }
  }

  lemma OrderConcat(a: seq<Block>, b: seq<Block>, kinds: seq<Kind>, n: nat)
    requires InKindOrder(a, kinds)
    requires forall x | x in a :: Rank(kinds, x.kind) < n
    requires forall x | x in b :: Rank(kinds, x.kind) == n
    ensures InKindOrder(a + b, kinds)
  {
  }

  lemma GroupedStep(blocks: seq<Block>, kinds: seq<Kind>, n: nat)
    requires 0 < n <= |kinds|
    ensures Grouped(blocks, kinds[..n]) == Grouped(blocks, kinds[..n - 1]) + Filter(blocks, OfKind(kinds[n - 1]))
  {
    assert kinds[..n][..n - 1] == kinds[..n - 1];
  }

  lemma FilterSnoc(front: seq<Block>, x: Block, kind: Kind)
    ensures Filter(front + [x], OfKind(kind)) == Filter(front, OfKind(kind)) + if x.kind == kind then [x] else []
  {
    FilterConcat(front, [x], OfKind(kind));
    FilterOne(x, OfKind(kind));
  }

  /** A block of the highest rank so far is grouped last. */
  lemma {:induction false} GroupedSnoc(front: seq<Block>, x: Block, kinds: seq<Kind>, n: nat)
    requires DistinctKinds(kinds) && n <= |kinds| && x.kind in kinds
    requires forall b | b in front :: b.kind in kinds && Rank(kinds, b.kind) <= Rank(kinds, x.kind)
    ensures Grouped(front + [x], kinds[..n]) == Grouped(front, kinds[..n]) + if Rank(kinds, x.kind) < n then [x] else []
  {
    if n > 0 {
      var kind, rank := kinds[n - 1], Rank(kinds, x.kind);
      RankIs(kinds, n - 1);
      GroupedSnoc(front, x, kinds, n - 1);
      GroupedStep(front, kinds, n);
      GroupedStep(front + [x], kinds, n);
      FilterSnoc(front, x, kind);
      if rank < n - 1 {
        NoneYet(front, kinds, n - 1, rank);
      } else if rank == n - 1 {
        SameRankSameKind(kinds, kind, x.kind);
      }
      SnocGroup(Grouped(front, kinds[..n - 1]), Filter(front, OfKind(kind)), x, rank < n - 1, x.kind == kind);
    }
  }

  lemma NoneYet(front: seq<Block>, kinds: seq<Kind>, n: nat, rank: nat)
    requires DistinctKinds(kinds) && rank < n < |kinds| && forall b | b in front :: Rank(kinds, b.kind) <= rank
    ensures Filter(front, OfKind(kinds[n])) == []
  {
    RankIs(kinds, n);
    FilterNone(front, OfKind(kinds[n]));
  }

  lemma SnocGroup<T>(a: seq<T>, b: seq<T>, x: T, early: bool, here: bool)
    requires early ==> b == [] && !here
    ensures (a + if early then [x] else []) + (b + if here then [x] else []) == (a + b) + if early || here then [x]
            else []
  {
  }

  lemma SameRankSameKind(kinds: seq<Kind>, a: Kind, b: Kind)
    requires DistinctKinds(kinds) && a in kinds && b in kinds && Rank(kinds, a) == Rank(kinds, b)
    ensures a == b
  {
    var i :| 0 <= i < |kinds| && kinds[i] == a;
    var j :| 0 <= j < |kinds| && kinds[j] == b;
    RankIs(kinds, i);
    RankIs(kinds, j);
  }

  lemma LastRanksHighest(front: seq<Block>, x: Block, kinds: seq<Kind>)
    requires InKindOrder(front + [x], kinds)
    ensures InKindOrder(front, kinds) && forall b | b in front :: Rank(kinds, b.kind) <= Rank(kinds, x.kind)
  {
    var blocks := front + [x];
    assert blocks[|front|] == x;
    assert forall i | 0 <= i < |front| :: blocks[i] == front[i];
  }

  lemma {:induction false} GroupedKeepsOrder(blocks: seq<Block>, kinds: seq<Kind>)
    requires DistinctKinds(kinds) && InKindOrder(blocks, kinds) && forall b | b in blocks :: b.kind in kinds
    ensures Grouped(blocks, kinds) == blocks
  {
    if blocks == [] {
      GroupedNothing(kinds);
    } else {
      var front, x := blocks[..|blocks| - 1], blocks[|blocks| - 1];
      assert blocks == front + [x] && x in blocks;
      assert forall b | b in front :: b in blocks;
      LastRanksHighest(front, x, kinds);
      GroupedKeepsOrder(front, kinds);
      GroupedSnocAll(front, x, kinds);
    }
  }

  lemma {:induction false} GroupedSnocAll(front: seq<Block>, x: Block, kinds: seq<Kind>)
    requires DistinctKinds(kinds) && x.kind in kinds
    requires forall b | b in front :: b.kind in kinds && Rank(kinds, b.kind) <= Rank(kinds, x.kind)
    ensures Grouped(front + [x], kinds) == Grouped(front, kinds) + [x]
  {
    assert kinds[..|kinds|] == kinds;
    var i :| 0 <= i < |kinds| && kinds[i] == x.kind;
    RankIs(kinds, i);
    GroupedSnoc(front, x, kinds, |kinds|);
  }

  lemma {:induction false} GroupedNothing(kinds: seq<Kind>)
    ensures Grouped([], kinds) == []
  {
    if kinds != [] {
      GroupedNothing(kinds[..|kinds| - 1]);
    }
  }

  /** Grouping keeps the blocks in place exactly when none comes after one of a kind looked for later. */
  lemma {:induction false} RecoveryKeepsOrderIff(blocks: seq<Block>, kinds: seq<Kind>)
    requires DistinctKinds(kinds) && forall b | b in blocks :: b.kind in kinds
    ensures Grouped(blocks, kinds) == blocks <==> InKindOrder(blocks, kinds)
  {
    assert kinds[..|kinds|] == kinds;
    GroupedInOrder(blocks, kinds, |kinds|);
    if InKindOrder(blocks, kinds) {
      GroupedKeepsOrder(blocks, kinds);
    }
  }

  // ---------- every kind of block ----------

  /** The block asks for this call: its text is a JSON call of a known tool, with these arguments, or else the
      bare name of one, with none. */
  predicate Asks(b: Block, known: set<string>, parse: Parser, name: string, arguments: string) {
    var text := Trim(b.inner);
    && text != "" && name in known
    && if parse(text).Some? && parse(text).value.name in known
       then name == parse(text).value.name && arguments == parse(text).value.arguments
       else name == text && arguments == "{}"
  }

  /** The block is empty, or names no known tool either way. */
  predicate AsksNothing(b: Block, known: set<string>, parse: Parser) {
    var text := Trim(b.inner);
    text == "" || (text !in known && (parse(text).None? || parse(text).value.name !in known))
  }

  function AsksSomething(known: set<string>, parse: Parser): Block -> bool {
    (b: Block) => !AsksNothing(b, known, parse)
  }

  lemma InterpretAsks(b: Block, known: set<string>, parse: Parser)
    ensures var call := Interpret(b.inner, known, parse);
            && (call.None? <==> AsksNothing(b, known, parse))
            && (call.Some? ==> Asks(b, known, parse, call.value.name, call.value.arguments))
  {
    TrimTwice(b.inner);
  }

  /** The calls answer the blocks one by one, numbered by position. */
  predicate AnswersAll(calls: seq<ToolCall>, blocks: seq<Block>, known: set<string>, parse: Parser) {
    && |calls| == |blocks|
    && forall i | 0 <= i < |calls| ::
         calls[i].id == RecoveredId(i) && Asks(blocks[i], known, parse, calls[i].name, calls[i].arguments)
  }

  lemma AnswersSnoc(
    calls: seq<ToolCall>, blocks: seq<Block>, b: Block, known: set<string>, parse: Parser)
    requires AnswersAll(calls, blocks, known, parse)
    ensures AnswersAll(Added(calls, Interpret(b.inner, known, parse)),
                       blocks + (if AsksNothing(b, known, parse) then [] else [b]), known, parse)
  {
    InterpretAsks(b, known, parse);
  }

  lemma {:induction false} AddedAnswers(blocks: seq<Block>, known: set<string>, parse: Parser)
    ensures AnswersAll(AddedAll([], blocks, known, parse), Filter(blocks, AsksSomething(known, parse)), known, parse)
  {
    if blocks != [] {
      var front, b := blocks[..|blocks| - 1], blocks[|blocks| - 1];
      AddedAnswers(front, known, parse);
      var calls, asking := AddedAll([], front, known, parse), Filter(front, AsksSomething(known, parse));
      AnswersSnoc(calls, asking, b, known, parse);
    }
  }

  /** Recovery from any text of plain pieces and blocks: one call for each block that asks for one, with the
      arguments it gives, kind by kind and within a kind in the order of the text; none for the others. */
  lemma {:induction false} RecoveryFindsCalls(doc: Doc, known: set<string>, parse: Parser)
    requires WellTagged(doc) && forall k | k in CALL_KINDS :: Lacks(doc, Open(k))
    ensures var asking := Filter(Grouped(Blocks(doc), CALL_KINDS), AsksSomething(known, parse));
            AnswersAll(RecoverKinds(Render(doc), CALL_KINDS, known, parse), asking, known, parse)
  {
    var kinds := CALL_KINDS;
    CallKindsOk();
    RecoverKindsDoc(doc, kinds, known, parse);
    AddedAnswers(Grouped(Blocks(doc), kinds), known, parse);
  }

  /** The number a string of digits stands for. */
  function Value(s: string): nat {
    if s == "" then 0 else 10 * Value(s[..|s| - 1]) + (if '0' <= s[|s| - 1] <= '9'
      then (s[|s| - 1] as int - '0' as int) as nat else 0)
  }

  lemma {:induction false} DecimalValue(n: nat)
    ensures Value(Decimal(n)) == n && Decimal(n) != "" && forall c | c in Decimal(n) :: '0' <= c <= '9'
  {
    var digit := "0123456789"[n % 10];
    assert digit as int == '0' as int + n % 10;
    if n < 10 {
      assert Decimal(n) == [digit] && [digit][..0] == "";
    } else {
      DecimalValue(n / 10);
      assert Decimal(n) == Decimal(n / 10) + [digit];
      assert (Decimal(n / 10) + [digit])[..|Decimal(n / 10)|] == Decimal(n / 10);
    }
  }

  /** Recovered ids are the position in decimal after a fixed prefix, so no two are the same. */
  lemma {:induction false} RecoveredIds(i: nat, j: nat)
    ensures |RecoveredId(i)| > 10 && RecoveredId(i)[..10] == "recovered_" && Value(RecoveredId(i)[10..]) == i
    ensures RecoveredId(i) == RecoveredId(j) ==> i == j
  {
    DecimalValue(i);
    DecimalValue(j);
    assert RecoveredId(i)[10..] == Decimal(i) && RecoveredId(j)[10..] == Decimal(j);
  }

  // ---------- a text whose calls come out of order ----------

  /** One kind of block before another, nothing around them. */
  function MixedDoc(later: Block, earlier: Block): Doc {
    Then("", later, Then("", earlier, End("")))
  }

  lemma ShortLacks(s: string, w: string)
    requires |s| < |w|
    ensures !Contains(s, w)
  {
    FindFirst(s, w);
  }

  lemma ShortTextsLack(s: string, k: Kind)
    requires |s| <= 1 && TagOk(k.tag)
    ensures !Contains(s, Open(k)) && !Contains(s, Close(k))
  {
    MarkersOf(k.tag);
    ShortLacks(s, Open(k));
    ShortLacks(s, Close(k));
  }

  lemma {:induction false} MixedDocLacks(x: Block, y: Block, k: Kind)
    requires |x.inner| == |y.inner| == 1 && TagOk(k.tag)
    ensures Lacks(MixedDoc(x, y), Open(k))
  {
    ShortTextsLack("", k);
    ShortTextsLack(x.inner, k);
    ShortTextsLack(y.inner, k);
  }

  lemma {:induction false} MixedBlocks(x: Block, y: Block)
    ensures Blocks(MixedDoc(x, y)) == [x, y]
  {
    assert Blocks(End("")) == [];
    assert Blocks(Then("", y, End(""))) == [y];
  }

  lemma {:induction false} FilterPair(x: Block, y: Block, kind: Kind)
    ensures Filter([x, y], OfKind(kind)) == (if x.kind == kind then [x] else []) + (if y.kind == kind then [y] else [])
  {
    assert [x] + [y] == [x, y];
    FilterConcat([x], [y], OfKind(kind));
    FilterOne(x, OfKind(kind));
    FilterOne(y, OfKind(kind));
  }

  /** Only the third and the first of four kinds occur, in this order. */
  lemma {:induction false} MixedGrouped(x: Block, y: Block, kinds: seq<Kind>)
    requires DistinctKinds(kinds) && |kinds| == 4 && x.kind == kinds[2] && y.kind == kinds[0]
    ensures Grouped([x, y], kinds) == [y, x]
  {
    var both := [x, y];
    assert kinds[..4] == kinds && kinds[..0] == [];
    GroupedStep(both, kinds, 1);
    FilterPair(x, y, kinds[0]);
    assert Grouped(both, kinds[..1]) == [y];
    GroupedStep(both, kinds, 2);
    FilterPair(x, y, kinds[1]);
    assert Grouped(both, kinds[..2]) == [y];
    GroupedStep(both, kinds, 3);
    FilterPair(x, y, kinds[2]);
    assert Grouped(both, kinds[..3]) == [y, x];
    GroupedStep(both, kinds, 4);
    FilterPair(x, y, kinds[3]);
  }

  lemma {:induction false} MixedCalls(x: Block, y: Block, kinds: seq<Kind>, known: set<string>, parse: Parser)
    requires DistinctKinds(kinds) && |kinds| == 4 && x.kind == kinds[2] && y.kind == kinds[0]
    requires forall k | k in kinds :: TagOk(k.tag)
    requires |x.inner| == |y.inner| == 1 && Names(x, known, parse) && Names(y, known, parse)
    ensures Numbered(RecoverKinds(Render(MixedDoc(x, y)), kinds, known, parse), [y, x])
  {
    MixedBlocks(x, y);
    ShortTextsLack(x.inner, x.kind);
    ShortTextsLack(y.inner, y.kind);
    forall k | k in kinds ensures Lacks(MixedDoc(x, y), Open(k)) {
      MixedDocLacks(x, y, k);
    }
    KindsFindNames(MixedDoc(x, y), kinds, known, parse);
    MixedGrouped(x, y, kinds);
  }

  /** A `function_call` block before a `tool_call` block: the calls come back the other way round. */
  lemma {:induction false} MixedKindsOutOfOrder(a: string, b: string, known: set<string>, parse: Parser)
    requires |a| == |b| == 1 && !IsWhitespace(a[0]) && !IsWhitespace(b[0])
    requires a in known && b in known && parse(a).None? && parse(b).None?
    ensures RecoverKinds(Render(MixedDoc(Block(CALL_KINDS[2], a), Block(CALL_KINDS[0], b))), CALL_KINDS, known, parse)
            == [ToolCall(RecoveredId(0), b, NO_ARGUMENTS), ToolCall(RecoveredId(1), a, NO_ARGUMENTS)]
  {
    var kinds := CALL_KINDS;
    CallKindsOk();
    TrimNothing(a);
    TrimNothing(b);
    MixedCalls(Block(kinds[2], a), Block(kinds[0], b), kinds, known, parse);
  }
}
