/** Token estimates and compaction (src/agent/context_monitor.rs, src/agent/compaction.rs). */
module Context {
  import opened Wrappers
  import opened Chat
  import opened Conversation

  const CONTEXT_LIMIT: nat := 100_000

  // ---------- estimates ----------

  /** Number of maximal whitespace-free runs. */
  function WordCount(s: string): nat {
    if s == "" then 0
    else
      var n := |s| - 1;
      WordCount(s[..n]) + (if !IsWhitespace(s[n]) && (n == 0 || IsWhitespace(s[n - 1])) then 1 else 0)
  }

  /** 1.3 tokens a word, rounded down, and 4 for the message structure. */
  function MessageTokens(m: ChatMessage): nat {
    WordCount(m.content) * 13 / 10 + 4
  }

  function Tokens(ms: seq<ChatMessage>): nat {
    if ms == [] then 0 else Tokens(ms[..|ms| - 1]) + MessageTokens(ms[|ms| - 1])
  }

  function RoleTokens(ms: seq<ChatMessage>, role: Role): nat {
    if ms == [] then 0
    else RoleTokens(ms[..|ms| - 1], role) + (if ms[|ms| - 1].role == role then MessageTokens(ms[|ms| - 1]) else 0)
  }

  /** 1.3 tokens a word, rounded down, and 4 more. */
  lemma TokensRoundDown(m: ChatMessage)
    ensures 10 * (MessageTokens(m) - 4) <= 13 * WordCount(m.content) < 10 * (MessageTokens(m) - 4) + 10
  {
  }

  predicate IsWord(w: string) {
    w != "" && forall c | c in w :: !IsWhitespace(c)
  }

  predicate IsGap(g: string) {
    g != "" && forall c | c in g :: IsWhitespace(c)
  }

  lemma {:induction false} GapAddsNothing(s: string, g: string)
    requires forall c | c in g :: IsWhitespace(c)
    ensures WordCount(s + g) == WordCount(s)
  {
    if g == "" {
      assert s + g == s;
    } else {
      assert (s + g)[..|s + g| - 1] == s + g[..|g| - 1];
      GapAddsNothing(s, g[..|g| - 1]);
    }
  }

  lemma {:induction false} WordAddsOne(s: string, w: string)
    requires IsWord(w) && (s == "" || IsWhitespace(s[|s| - 1]))
    ensures WordCount(s + w) == WordCount(s) + 1
  {
    assert (s + w)[..|s + w| - 1] == s + w[..|w| - 1];
    if |w| == 1 {
      assert s + w[..0] == s;
    } else {
      WordAddsOne(s, w[..|w| - 1]);
    }
  }

  /** A text of words, each after a gap. */
  function Spaced(words: seq<string>, gaps: seq<string>): string
    requires |words| == |gaps|
  {
    if words == [] then ""
    else
      var n := |words| - 1;
      Spaced(words[..n], gaps[..n]) + gaps[n] + words[n]
  }

  /** Words separated by any whitespace are counted one by one, however the text begins and ends. */
  lemma {:induction false} WordsAreCounted(words: seq<string>, gaps: seq<string>, tail: string)
    requires |words| == |gaps| && (forall c | c in tail :: IsWhitespace(c))
    requires forall i | 0 <= i < |words| :: IsWord(words[i])
    requires forall i | 0 <= i < |gaps| :: IsGap(gaps[i]) || (i == 0 && gaps[i] == "")
    ensures WordCount(Spaced(words, gaps) + tail) == |words|
  {
    if words != [] {
      var n := |words| - 1;
      var before := Spaced(words[..n], gaps[..n]);
      WordsAreCounted(words[..n], gaps[..n], gaps[n]);
      if gaps[n] != "" {
        assert (before + gaps[n])[|before + gaps[n]| - 1] == gaps[n][|gaps[n]| - 1];
      }
      WordAddsOne(before + gaps[n], words[n]);
    }
    GapAddsNothing(Spaced(words, gaps), tail);
  }

  datatype Breakdown = Breakdown(total: nat, system: nat, user: nat, assistant: nat, tool: nat, count: nat)

  /** One pass accumulates the total and the four per-role totals, which sum to the estimate. */
  method Analyze(ms: seq<ChatMessage>) returns (b: Breakdown)
    ensures b.total == Tokens(ms) && b.count == |ms|
    ensures b.system == RoleTokens(ms, System) && b.user == RoleTokens(ms, User)
    ensures b.assistant == RoleTokens(ms, Assistant) && b.tool == RoleTokens(ms, Tool)
    ensures b.system + b.user + b.assistant + b.tool == Tokens(ms)
  {
    b := Breakdown(0, 0, 0, 0, 0, |ms|);
    for i := 0 to |ms|
      invariant b.count == |ms| && b.total == Tokens(ms[..i])
      invariant b.system == RoleTokens(ms[..i], System) && b.user == RoleTokens(ms[..i], User)
      invariant b.assistant == RoleTokens(ms[..i], Assistant) && b.tool == RoleTokens(ms[..i], Tool)
      invariant b.system + b.user + b.assistant + b.tool == b.total
    {
      assert ms[..i + 1][..i] == ms[..i];
      var tokens := MessageTokens(ms[i]);
      b := b.(total := b.total + tokens);
      match ms[i].role
      case System => b := b.(system := b.system + tokens);
      case User => b := b.(user := b.user + tokens);
      case Assistant => b := b.(assistant := b.assistant + tokens);
      case Tool => b := b.(tool := b.tool + tokens);
    }
    assert ms[..|ms|] == ms;
  }

  lemma {:induction false} TokensConcat(a: seq<ChatMessage>, b: seq<ChatMessage>)
    ensures Tokens(a + b) == Tokens(a) + Tokens(b)
  {
    if b == [] {
      assert a + b == a;
    } else {
      assert (a + b)[..|a + b| - 1] == a + b[..|b| - 1];
      TokensConcat(a, b[..|b| - 1]);
    }
  }

  // ---------- strategy and compaction ----------

  datatype Strategy = Summarize(keepRecent: nat) | Truncate(keepRecent: nat) | MoveToWorkspace

  /** Compaction starts at 80% of the limit; above 85% it summarizes, above 95% it truncates. */
  function SuggestCompaction(ms: seq<ChatMessage>): Option<Strategy> {
    var tokens := Tokens(ms);
    if tokens < CONTEXT_LIMIT * 80 / 100 then None
    else if tokens * 100 > CONTEXT_LIMIT * 95 then Some(Truncate(3))
    else if tokens * 100 > CONTEXT_LIMIT * 85 then Some(Summarize(5))
    else Some(MoveToWorkspace)
  }

  /** What the surroundings answer during a compaction: is there a workspace, does a write to it
      succeed, and what summary (if any) the model returns. */
  datatype Surroundings = Surroundings(hasWorkspace: bool, writeSucceeds: bool, summary: Option<string>)

  datatype CompactionResult =
    | CompactionFailed
    | Compacted(turnsRemoved: nat, tokensBefore: nat, tokensAfter: nat, summaryWritten: bool, summary: Option<string>)

  /** How many recent turns a strategy keeps. */
  function KeepCount(strategy: Strategy, env: Surroundings): nat {
    match strategy
    case Summarize(k) => k
    case Truncate(k) => k
    case MoveToWorkspace => if env.hasWorkspace then 10 else 5
  }

  /** Summarizing is only attempted when there is something to drop, and fails when the model does. */
  predicate SummaryFails(turns: seq<Turn>, strategy: Strategy, env: Surroundings) {
    strategy.Summarize? && |turns| > strategy.keepRecent && env.summary.None?
  }

  function CompactedTurns(turns: seq<Turn>, strategy: Strategy, env: Surroundings): seq<Turn> {
    if SummaryFails(turns, strategy, env) then turns else Truncated(turns, KeepCount(strategy, env))
  }

  /** Compaction leaves a suffix of the messages, never raises the token total, keeps turn number
      equal to index, changes nothing when summarizing fails, and changes the messages exactly when
      it drops a turn. */
  lemma {:induction false} CompactionIsSafe(turns: seq<Turn>, strategy: Strategy, env: Surroundings)
    ensures var after := CompactedTurns(turns, strategy, env);
            && |Messages(after)| <= |Messages(turns)|
            && Messages(after) == Messages(turns)[|Messages(turns)| - |Messages(after)|..]
            && Tokens(Messages(after)) <= Tokens(Messages(turns))
            && (NumberedFrom(turns, 0) ==> NumberedFrom(after, 0))
            && (SummaryFails(turns, strategy, env) ==> after == turns)
            && (Messages(after) == Messages(turns) <==> |after| == |turns|)
  {
    if SummaryFails(turns, strategy, env) {
      assert Messages(turns)[0..] == Messages(turns);
    } else {
      TruncationIsSafe(turns, KeepCount(strategy, env));
    }
  }

  lemma {:induction false} TruncationIsSafe(turns: seq<Turn>, keep: nat)
    ensures var ms, after := Messages(turns), Truncated(turns, keep);
            && |Messages(after)| <= |ms| && Messages(after) == ms[|ms| - |Messages(after)|..]
            && Tokens(Messages(after)) <= Tokens(ms)
            && (NumberedFrom(turns, 0) ==> NumberedFrom(after, 0))
            && (Messages(after) == ms <==> |after| == |turns|)
  {
    TruncatedMessages(turns, keep);
    TruncatedTokens(turns, keep);
    if NumberedFrom(turns, 0) {
      TruncatedNumbered(turns, keep);
    }
  }

  lemma {:induction false} TruncatedTokens(turns: seq<Turn>, keep: nat)
    ensures Tokens(Messages(Truncated(turns, keep))) <= Tokens(Messages(turns))
  {
    TruncatedMessages(turns, keep);
    SuffixTokens(Messages(turns), |Messages(turns)| - |Messages(Truncated(turns, keep))|);
  }

  lemma {:induction false} TruncatedNumbered(turns: seq<Turn>, keep: nat)
    requires NumberedFrom(turns, 0)
    ensures NumberedFrom(Truncated(turns, keep), 0)
  {
  }

  lemma {:induction false} SuffixTokens(ms: seq<ChatMessage>, cut: nat)
    requires cut <= |ms|
    ensures Tokens(ms[cut..]) <= Tokens(ms)
  {
    assert ms == ms[..cut] + ms[cut..];
    TokensConcat(ms[..cut], ms[cut..]);
  }

  /** What a strategy reports beside the new turns. */
  datatype Partial = Partial(turnsRemoved: nat, summaryWritten: bool, summary: Option<string>)

  method ApplyStrategy(thread: ConversationThread, strategy: Strategy, env: Surroundings) returns (r: Option<Partial>)
    modifies thread
    ensures thread.turns == CompactedTurns(old(thread.turns), strategy, env)
    ensures r.None? <==> SummaryFails(old(thread.turns), strategy, env)
    ensures r.Some? ==> r.value.turnsRemoved == |old(thread.turns)| - |thread.turns|
    ensures r.Some? && r.value.summaryWritten ==> env.hasWorkspace && env.writeSucceeds && r.value.turnsRemoved > 0
    ensures r.Some? && r.value.summary.Some? ==> strategy.Summarize? && r.value.summary == env.summary
  {
    var turnsBefore := |thread.turns|;
    match strategy
    case Summarize(keep) =>
      if turnsBefore <= keep {
        return Some(Partial(0, false, None));
      }
      if env.summary.None? {
        return None;
      }
      thread.TruncateTurns(keep);
      r := Some(Partial(turnsBefore - keep, env.hasWorkspace && env.writeSucceeds, env.summary));
    case Truncate(keep) =>
      thread.TruncateTurns(keep);
      r := Some(Partial(turnsBefore - |thread.turns|, false, None));
    case MoveToWorkspace =>
      if !env.hasWorkspace {
        thread.TruncateTurns(5);
        r := Some(Partial(turnsBefore - |thread.turns|, false, None));
      } else if turnsBefore <= 10 {
        r := Some(Partial(0, false, None));
      } else {
        thread.TruncateTurns(10);
        r := Some(Partial(turnsBefore - 10, env.writeSucceeds, None));
      }
  }

  method Compact(thread: ConversationThread, strategy: Strategy, env: Surroundings) returns (r: CompactionResult)
    modifies thread
    ensures thread.turns == CompactedTurns(old(thread.turns), strategy, env)
    ensures r.CompactionFailed? <==> SummaryFails(old(thread.turns), strategy, env)
    ensures r.Compacted? ==>
              && r.turnsRemoved == |old(thread.turns)| - |thread.turns|
              && r.tokensBefore == Tokens(Messages(old(thread.turns)))
              && r.tokensAfter == Tokens(Messages(thread.turns)) <= r.tokensBefore
    ensures r.Compacted? && r.summaryWritten ==> env.hasWorkspace && env.writeSucceeds && r.turnsRemoved > 0
    ensures r.Compacted? && r.summary.Some? ==> strategy.Summarize? && r.summary == env.summary
  {
    CompactionIsSafe(thread.turns, strategy, env);
    var messages := thread.PrintMessages();
    var before := Analyze(messages);
    var partial := ApplyStrategy(thread, strategy, env);
    if partial.None? {
      return CompactionFailed;
    }
    messages := thread.PrintMessages();
    var after := Analyze(messages);
    r := Compacted(partial.value.turnsRemoved, before.total, after.total, partial.value.summaryWritten,
      partial.value.summary);
  }
}
