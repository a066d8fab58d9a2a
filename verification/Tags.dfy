/** Tool calls and internal tags that a model wrote into its text (src/llm/reasoning.rs). */
module Tags {
  import opened Wrappers
  import opened Sequences
  import opened Chat
  import opened TextSearch
  import opened NewlineCollapse

  /** `<tag>` and `</tag>`, or `<|tag|>` and `<|/tag|>`. */
  datatype Kind = Xml(tag: string) | Pipe(tag: string)

  function Open(kind: Kind): string {
    match kind
    case Xml(tag) => "<" + tag + ">"
    case Pipe(tag) => "<|" + tag + "|>"
  }

  function Close(kind: Kind): string {
    match kind
    case Xml(tag) => "</" + tag + ">"
    case Pipe(tag) => "<|/" + tag + "|>"
  }

  /** An opening tag up to its attributes. */
  function OpenPrefix(tag: string): string {
    "<" + tag + " "
  }

  const CALL_KINDS: seq<Kind> := [Xml("tool_call"), Pipe("tool_call"), Xml("function_call"), Pipe("function_call")]
  const INTERNAL_TAGS: seq<string> := ["thinking", "tool_call", "function_call", "tool_calls"]

  // ---------- recovering tool calls ----------

  /** The name and arguments of a JSON object with a name. */
  datatype ParsedCall = ParsedCall(name: string, arguments: string)

  type Parser = string -> Option<ParsedCall>

  const NO_ARGUMENTS: string := "{}"

  /** What a block asks for: a JSON call of a known tool, or the bare name of one. */
  function Interpret(inner: string, known: set<string>, parse: Parser): Option<ParsedCall> {
    var text := Trim(inner);
    if text == "" then None
    else if parse(text).Some? && parse(text).value.name in known then parse(text)
    else if Trim(text) in known then Some(ParsedCall(Trim(text), NO_ARGUMENTS))
    else None
  }

  function Decimal(n: nat): string {
    var digit := ["0123456789"[n % 10]];
    if n < 10 then digit else Decimal(n / 10) + digit
  }

  function RecoveredId(position: nat): string {
    "recovered_" + Decimal(position)
  }

  function Added(calls: seq<ToolCall>, call: Option<ParsedCall>): seq<ToolCall> {
    if call.None? then calls else calls + [ToolCall(RecoveredId(|calls|), call.value.name, call.value.arguments)]
  }

  /** The inside of the first block from `open` to `close`, and what follows the block. */
  function NextBlock(s: string, open: string, close: string): (r: Option<(string, string)>)
    ensures r.Some? && open != "" ==> |r.value.1| < |s|
  {
    var start := Find(s, open);
    if start.None? then None
    else
      var after := s[start.value + |open|..];
      var end := Find(after, close);
      if end.None? then None else Some((after[..end.value], after[end.value + |close|..]))
  }

  /** The calls in the blocks from `open` to `close`, after those already found. */
  function RecoverBetween(
    s: string, open: string, close: string, known: set<string>, parse: Parser, calls: seq<ToolCall>): seq<ToolCall>
    requires open != ""
    decreases |s|
  {
    var next := NextBlock(s, open, close);
    if next.None? then calls
    else RecoverBetween(next.value.1, open, close, known, parse, Added(calls, Interpret(next.value.0, known, parse)))
  }

  function RecoverKind(s: string, kind: Kind, known: set<string>, parse: Parser, calls: seq<ToolCall>): seq<ToolCall> {
    RecoverBetween(s, Open(kind), Close(kind), known, parse, calls)
  }

  function RecoverKinds(s: string, kinds: seq<Kind>, known: set<string>, parse: Parser): seq<ToolCall> {
    if kinds == [] then []
    else
      RecoverKind(s, kinds[|kinds| - 1], known, parse, RecoverKinds(s, kinds[..|kinds| - 1], known, parse))
  }

  method CallsBetween(
    content: string, open: string, close: string, known: set<string>, parse: Parser, found: seq<ToolCall>)
    returns (calls: seq<ToolCall>)
    requires open != ""
    ensures calls == RecoverBetween(content, open, close, known, parse, found)
  {
    calls := found;
    var remaining := content;
    while Find(remaining, open).Some?
      invariant RecoverBetween(remaining, open, close, known, parse, calls)
                == RecoverBetween(content, open, close, known, parse, found)
      decreases |remaining|
    {
      var start := Find(remaining, open).value;
      var after := remaining[start + |open|..];
      var end := Find(after, close);
      if end.None? {
        break;
      }
      var inner := Trim(after[..end.value]);
      remaining := after[end.value + |close|..];
      if inner == "" {
        continue;
      }
      var parsed := parse(inner);
      if parsed.Some? && parsed.value.name in known {
        calls := calls + [ToolCall(RecoveredId(|calls|), parsed.value.name, parsed.value.arguments)];
        continue;
      }
      var name := Trim(inner);
      if name in known {
        calls := calls + [ToolCall(RecoveredId(|calls|), name, NO_ARGUMENTS)];
      }
    }
  }

  method RecoverToolCalls(content: string, known: set<string>, parse: Parser) returns (calls: seq<ToolCall>)
    ensures calls == RecoverKinds(content, CALL_KINDS, known, parse)
  {
    calls := [];
    for i := 0 to |CALL_KINDS|
      invariant calls == RecoverKinds(content, CALL_KINDS[..i], known, parse)
    {
      assert CALL_KINDS[..i + 1][..i] == CALL_KINDS[..i];
      calls := CallsBetween(content, Open(CALL_KINDS[i]), Close(CALL_KINDS[i]), known, parse, calls);
    }
    assert CALL_KINDS[..|CALL_KINDS|] == CALL_KINDS;
  }

  // ---------- stripping tags ----------

  /** The nearer of two positions. */
  function Nearest(a: Option<nat>, b: Option<nat>): Option<nat> {
    if a.None? then b else if b.None? || a.value <= b.value then a else b
  }

  /** The first block: absent, with an opening that never ends, never closed, or complete. */
  datatype Span = Absent | Unended(before: string) | Unclosed(before: string) | Complete(before: string, rest: string)

  /** The span whose opening begins where `after` does. */
  function SpanFrom(before: string, after: string, close: string): (r: Span)
    ensures r.Complete? ==> |r.rest| + |close| < |after|
  {
    var bracket := Find(after, ">");
    if bracket.None? then Unended(before)
    else
      var inside := after[bracket.value + 1..];
      var end := Find(inside, close);
      if end.None? then Unclosed(before) else Complete(before, inside[end.value + |close|..])
  }

  function XmlSpan(s: string, exact: string, prefix: string, close: string): (r: Span)
    ensures r.Complete? ==> |r.rest| < |s|
  {
    var start := Nearest(Find(s, exact), Find(s, prefix));
    if start.None? then Absent else SpanFrom(s[..start.value], s[start.value..], close)
  }

  /** An opening that never ends leaves the text before it twice; a block that never closes takes the rest. */
  function StrippedXmlBetween(s: string, exact: string, prefix: string, close: string): string
    decreases |s|
  {
    match XmlSpan(s, exact, prefix, close)
    case Absent => s
    case Unended(before) => before + s
    case Unclosed(before) => before
    case Complete(before, rest) => before + StrippedXmlBetween(rest, exact, prefix, close)
  }

  function StrippedXml(s: string, tag: string): string {
    StrippedXmlBetween(s, Open(Xml(tag)), OpenPrefix(tag), Close(Xml(tag)))
  }

  function PipeSpan(s: string, open: string, close: string): (r: Span)
    ensures r.Complete? && close != "" ==> |r.rest| < |s|
  {
    var start := Find(s, open);
    if start.None? then Absent
    else
      var before, after := s[..start.value], s[start.value..];
      var end := Find(after, close);
      if end.None? then Unclosed(before) else Complete(before, after[end.value + |close|..])
  }

  function StrippedPipeBetween(s: string, open: string, close: string): string
    requires close != ""
    decreases |s|
  {
    match PipeSpan(s, open, close)
    case Absent => s
    case Unended(before) => before
    case Unclosed(before) => before
    case Complete(before, rest) => before + StrippedPipeBetween(rest, open, close)
  }

  function StrippedPipe(s: string, tag: string): string {
    StrippedPipeBetween(s, Open(Pipe(tag)), Close(Pipe(tag)))
  }

  method StripXmlBetween(text: string, exact: string, prefix: string, close: string) returns (result: string)
    ensures result == StrippedXmlBetween(text, exact, prefix, close)
  {
    result := "";
    var remaining := text;
    while true
      invariant result + StrippedXmlBetween(remaining, exact, prefix, close)
                == StrippedXmlBetween(text, exact, prefix, close)
      decreases |remaining|
    {
      var start := Nearest(Find(remaining, exact), Find(remaining, prefix));
      if start.None? {
        break;
      }
      var before, after := remaining[..start.value], remaining[start.value..];
      var bracket := Find(after, ">");
      if bracket.None? {
        Regroup(result, before, remaining);
        return result + before + remaining;
      }
      var inside := after[bracket.value + 1..];
      var end := Find(inside, close);
      if end.None? {
        return result + before;
      }
      var rest := inside[end.value + |close|..];
      assert XmlSpan(remaining, exact, prefix, close) == Complete(before, rest);
      Regroup(result, before, StrippedXmlBetween(rest, exact, prefix, close));
      result := result + before;
      remaining := rest;
    }
    result := result + remaining;
  }

  method StripXmlTag(text: string, tag: string) returns (result: string)
    ensures result == StrippedXml(text, tag)
  {
    result := StripXmlBetween(text, "<" + tag + ">", "<" + tag + " ", "</" + tag + ">");
  }

  method StripPipeBetween(text: string, open: string, close: string) returns (result: string)
    requires close != ""
    ensures result == StrippedPipeBetween(text, open, close)
  {
    result := "";
    var remaining := text;
    while Find(remaining, open).Some?
      invariant result + StrippedPipeBetween(remaining, open, close) == StrippedPipeBetween(text, open, close)
      decreases |remaining|
    {
      var start := Find(remaining, open).value;
      var before, after := remaining[..start], remaining[start..];
      var end := Find(after, close);
      if end.None? {
        return result + before;
      }
      var rest := after[end.value + |close|..];
      Regroup(result, before, StrippedPipeBetween(rest, open, close));
      result := result + before;
      remaining := rest;
    }
    result := result + remaining;
  }

  method StripPipeTag(text: string, tag: string) returns (result: string)
    ensures result == StrippedPipe(text, tag)
  {
    result := StripPipeBetween(text, "<|" + tag + "|>", "<|/" + tag + "|>");
  }

  function StrippedTags(s: string, tags: seq<string>): string {
    if tags == [] then s
    else
      var tag := tags[|tags| - 1];
      StrippedPipe(StrippedXml(StrippedTags(s, tags[..|tags| - 1]), tag), tag)
  }

  method StripInternalTags(text: string) returns (result: string)
    ensures result == Trim(Capped(StrippedTags(text, INTERNAL_TAGS)))
  {
    result := text;
    for i := 0 to |INTERNAL_TAGS|
      invariant result == StrippedTags(text, INTERNAL_TAGS[..i])
    {
      assert INTERNAL_TAGS[..i + 1][..i] == INTERNAL_TAGS[..i];
      result := StripXmlTag(result, INTERNAL_TAGS[i]);
      result := StripPipeTag(result, INTERNAL_TAGS[i]);
    }
    assert INTERNAL_TAGS[..|INTERNAL_TAGS|] == INTERNAL_TAGS;
    result := Collapse(result);
    result := Trim(result);
  }
}
