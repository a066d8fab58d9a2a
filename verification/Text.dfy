/** Searching and trimming text. */
module TextSearch {
  import opened Wrappers
  import opened Sequences
  import opened Chat

  predicate OccursAt(s: string, w: string, p: nat) {
    p + |w| <= |s| && s[p..p + |w|] == w
  }

  /** The first occurrence of `w` at or after `from`. */
  function FindFrom(s: string, w: string, from: nat): (r: Option<nat>)
    requires from <= |s|
    ensures r.Some? ==> r.value + |w| <= |s|
    decreases |s| - from
  {
    if OccursAt(s, w, from) then Some(from) else if from == |s| then None else FindFrom(s, w, from + 1)
  }

  lemma {:induction false} FindFromFirst(s: string, w: string, from: nat)
    requires from <= |s|
    ensures var r := FindFrom(s, w, from);
            && (r.Some? ==> from <= r.value && OccursAt(s, w, r.value) && forall p: nat | from <= p < r.value ::
               !OccursAt(s, w, p))
            && (r.None? ==> forall p: nat | from <= p :: !OccursAt(s, w, p))
    decreases |s| - from
  {
    if !OccursAt(s, w, from) && from < |s| {
      FindFromFirst(s, w, from + 1);
    }
  }

  function Find(s: string, w: string): (r: Option<nat>)
    ensures r.Some? ==> r.value + |w| <= |s|
  {
    FindFrom(s, w, 0)
  }

  /** `Find` gives the first occurrence, and none only where there is none. */
  lemma FindFirst(s: string, w: string)
    ensures var r := Find(s, w);
            && (r.Some? ==> OccursAt(s, w, r.value) && forall p: nat | p < r.value :: !OccursAt(s, w, p))
            && (r.None? ==> forall p: nat :: !OccursAt(s, w, p))
  {
    FindFromFirst(s, w, 0);
  }

  predicate Contains(s: string, w: string) {
    Find(s, w).Some?
  }

  lemma SuffixOccurs(s: string, w: string, k: nat, p: nat)
    requires k <= |s|
    ensures OccursAt(s[k..], w, p) <==> OccursAt(s, w, k + p)
  {
    if p + |w| <= |s| - k {
      assert s[k..][p..p + |w|] == s[k + p..k + p + |w|];
    }
  }

  lemma SuffixLacks(s: string, w: string, k: nat)
    requires k <= |s| && !Contains(s, w)
    ensures !Contains(s[k..], w)
  {
    FindFirst(s, w);
    FindFirst(s[k..], w);
    forall p: nat ensures !OccursAt(s[k..], w, p) {
      SuffixOccurs(s, w, k, p);
    }
  }

  lemma PrefixLacks(s: string, w: string, k: nat)
    requires k <= |s| && !Contains(s, w)
    ensures !Contains(s[..k], w)
  {
    FindFirst(s, w);
    FindFirst(s[..k], w);
    forall p: nat ensures !OccursAt(s[..k], w, p) {
      if p + |w| <= k {
        assert s[..k][p..p + |w|] == s[p..p + |w|];
        assert !OccursAt(s, w, p);
      }
    }
  }

  predicate Blank(s: string) {
    forall c | c in s :: IsWhitespace(c)
  }

  function TrimStart(s: string): (r: string)
    ensures |r| <= |s|
  {
    if s == "" || !IsWhitespace(s[0]) then s else TrimStart(s[1..])
  }

  function TrimEnd(s: string): (r: string)
    ensures |r| <= |s|
  {
    if s == "" || !IsWhitespace(s[|s| - 1]) then s else TrimEnd(s[..|s| - 1])
  }

  lemma {:induction false} TrimStartDrops(s: string)
    ensures s == s[..|s| - |TrimStart(s)|] + TrimStart(s) && TrimStart(s) == s[|s| - |TrimStart(s)|..]
    ensures Blank(s[..|s| - |TrimStart(s)|])
    ensures TrimStart(s) == "" || !IsWhitespace(TrimStart(s)[0])
  {
    if s != "" && IsWhitespace(s[0]) {
      TrimStartDrops(s[1..]);
      BlankCons(s, |s| - |TrimStart(s)|);
    }
  }

  lemma BlankCons(s: string, k: nat)
    requires 0 < k <= |s| && IsWhitespace(s[0]) && Blank(s[1..][..k - 1])
    ensures Blank(s[..k]) && s[1..][k - 1..] == s[k..] && s == s[..k] + s[k..]
  {
    assert s[..k] == [s[0]] + s[1..][..k - 1];
  }

  lemma {:induction false} TrimEndDrops(s: string)
    ensures s == TrimEnd(s) + s[|TrimEnd(s)|..]
    ensures Blank(s[|TrimEnd(s)|..])
    ensures TrimEnd(s) == "" || !IsWhitespace(TrimEnd(s)[|TrimEnd(s)| - 1])
  {
    if s != "" && IsWhitespace(s[|s| - 1]) {
      var n := |TrimEnd(s)|;
      TrimEndDrops(s[..|s| - 1]);
      assert s[n..] == s[..|s| - 1][n..] + [s[|s| - 1]];
    }
  }

  function Trim(s: string): string {
    TrimEnd(TrimStart(s))
  }

  /** Trimming drops the whitespace around a text and nothing else. */
  lemma {:induction false} TrimDrops(s: string) returns (front: string, back: string)
    ensures s == front + Trim(s) + back && Blank(front) && Blank(back)
    ensures Trim(s) == "" || (!IsWhitespace(Trim(s)[0]) && !IsWhitespace(Trim(s)[|Trim(s)| - 1]))
  {
    var t := TrimStart(s);
    TrimStartDrops(s);
    TrimEndDrops(t);
    front, back := s[..|s| - |t|], t[|Trim(s)|..];
    assert TrimEnd(t) != "" ==> TrimEnd(t)[0] == t[0];
    Regroup(front, TrimEnd(t), back);
  }
}

/** Long blank stretches left behind by removed blocks (src/llm/reasoning.rs). */
module NewlineCollapse {
  import opened Sequences
  import opened TextSearch

  const TRIPLE: string := "\n\n\n"

  /** One pass of replacing, left to right, three newlines by two. */
  function ReplaceTriples(s: string): (r: string)
    ensures |r| <= |s|
    decreases |s|
  {
    if s == "" then ""
    else if OccursAt(s, TRIPLE, 0) then "\n\n" + ReplaceTriples(s[3..])
    else [s[0]] + ReplaceTriples(s[1..])
  }

  /** `s` with every newline run capped at two, when `run` newlines come just before. */
  function CapFrom(s: string, run: nat): string {
    if s == "" then ""
    else if s[0] != '\n' then [s[0]] + CapFrom(s[1..], 0)
    else (if run < 2 then "\n" else "") + CapFrom(s[1..], run + 1)
  }

  function Capped(s: string): string {
    CapFrom(s, 0)
  }

  lemma {:induction false} LongRunsAlike(s: string, a: nat, b: nat)
    requires a >= 2 && b >= 2
    ensures CapFrom(s, a) == CapFrom(s, b)
  {
    if s != "" && s[0] == '\n' {
      LongRunsAlike(s[1..], a + 1, b + 1);
    }
  }

  lemma CapNewline(s: string, run: nat)
    ensures CapFrom("\n" + s, run) == (if run < 2 then "\n" else "") + CapFrom(s, run + 1)
  {
    assert ("\n" + s)[1..] == s;
  }

  lemma CapOther(c: char, s: string, run: nat)
    requires c != '\n'
    ensures CapFrom([c] + s, run) == [c] + CapFrom(s, 0)
  {
    assert ([c] + s)[1..] == s;
  }

  /** A third newline in a row adds nothing. */
  lemma CapTriple(s: string, run: nat)
    ensures CapFrom("\n\n\n" + s, run) == CapFrom("\n\n" + s, run)
  {
    Consed(s);
    CapNewline("\n" + ("\n" + s), run);
    CapNewline("\n" + s, run + 1);
    CapNewline(s, run + 2);
    CapNewline("\n" + s, run);
    CapNewline(s, run + 1);
    LongRunsAlike(s, run + 3, run + 2);
    EmptyPrefix(CapFrom(s, run + 3));
  }

  lemma Consed(s: string)
    ensures "\n\n\n" + s == "\n" + ("\n" + ("\n" + s))
    ensures "\n\n" + s == "\n" + ("\n" + s)
  {
  }

  /** A replacing pass does not change what the text caps to. */
  lemma {:induction false} ReplaceKeepsCap(s: string, run: nat)
    ensures CapFrom(ReplaceTriples(s), run) == CapFrom(s, run)
    decreases |s|
  {
    if s == "" {
    } else if OccursAt(s, TRIPLE, 0) {
      var rest := s[3..];
      assert s == TRIPLE + rest;
      CapTriple(rest, run);
      var cut := ReplaceTriples(rest);
      Consed(cut);
      Consed(rest);
      CapNewline("\n" + cut, run);
      CapNewline(cut, run + 1);
      CapNewline("\n" + rest, run);
      CapNewline(rest, run + 1);
      ReplaceKeepsCap(rest, run + 2);
    } else {
      var rest := s[1..];
      assert s == [s[0]] + rest;
      if s[0] == '\n' {
        CapNewline(ReplaceTriples(rest), run);
        ReplaceKeepsCap(rest, run + 1);
      } else {
        CapOther(s[0], ReplaceTriples(rest), run);
        ReplaceKeepsCap(rest, 0);
      }
    }
  }

  lemma {:induction false} ReplaceShrinks(s: string)
    requires Contains(s, TRIPLE)
    ensures |ReplaceTriples(s)| < |s|
    decreases |s|
  {
    var p := Find(s, TRIPLE).value;
    FindFirst(s, TRIPLE);
    if p > 0 {
      FindFirst(s[1..], TRIPLE);
      assert s[1..][p - 1..p + 2] == s[p..p + 3];
      assert OccursAt(s[1..], TRIPLE, p - 1);
      ReplaceShrinks(s[1..]);
    }
  }

  lemma TripleAt(s: string)
    ensures |s| >= 3 && s[0] == s[1] == s[2] == '\n' ==> OccursAt(s, TRIPLE, 0)
  {
  }

  /** A text without three newlines in a row, after `run` more, is its own cap. */
  lemma {:induction false} CapOfCapped(s: string, run: nat)
    requires run <= 2 && !Contains(seq(run, _ => '\n') + s, TRIPLE)
    ensures CapFrom(s, run) == s
    decreases |s|
  {
    if s != "" {
      var before := seq(run, _ => '\n');
      var whole := before + s;
      if s[0] == '\n' {
        TripleAt(whole);
        FindFirst(whole, TRIPLE);
        assert run < 2;
        var longer := seq(run + 1, _ => '\n');
        assert longer + s[1..] == whole;
        CapOfCapped(s[1..], run + 1);
      } else {
        SuffixLacks(whole, TRIPLE, run + 1);
        assert whole[run + 1..] == seq(0, _ => '\n') + s[1..];
        CapOfCapped(s[1..], 0);
      }
    }
  }

  /** Repeated replacing terminates and caps every run of newlines at two. */
  method Collapse(text: string) returns (r: string)
    ensures r == Capped(text)
    ensures !Contains(r, TRIPLE)
  {
    r := text;
    while Contains(r, TRIPLE)
      invariant Capped(r) == Capped(text)
      decreases |r|
    {
      ReplaceShrinks(r);
      ReplaceKeepsCap(r, 0);
      r := ReplaceTriples(r);
    }
    assert seq(0, _ => '\n') + r == r;
    CapOfCapped(r, 0);
  }

  /** The caps of two texts side by side, when no newline run crosses the seam. */
  lemma {:induction false} CapConcat(a: string, b: string, run: nat)
    requires b == "" || b[0] != '\n' || (a != "" && a[|a| - 1] != '\n')
    ensures CapFrom(a + b, run) == CapFrom(a, run) + CapFrom(b, if a == "" then run else 0)
    decreases |a|
  {
    if a == "" {
      assert a + b == b;
    } else {
      var rest := a[1..];
      assert (a + b)[1..] == rest + b;
      var first := if a[0] != '\n' then [a[0]] else if run < 2 then "\n" else "";
      var next := if a[0] == '\n' then run + 1 else 0;
      assert CapFrom(a, run) == first + CapFrom(rest, next);
      assert CapFrom(a + b, run) == first + CapFrom(rest + b, next);
      if rest == "" {
        EmptyPrefix(b);
        Regroup(first, CapFrom(rest, next), CapFrom(b, 0));
        EmptyPrefix(CapFrom(b, 0));
        assert CapFrom(b, next) == CapFrom(b, 0);
      } else {
        CapConcat(rest, b, next);
        Regroup(first, CapFrom(rest, next), CapFrom(b, 0));
      }
    }
  }

  lemma {:induction false} CapRun(n: nat, run: nat)
    ensures CapFrom(seq(n, _ => '\n'), run) == seq(if run >= 2 then 0 else if n < 2 - run then n
            else 2 - run, _ => '\n')
    decreases n
  {
    if n > 0 {
      var s := seq(n, _ => '\n');
      assert s[1..] == seq(n - 1, _ => '\n');
      CapRun(n - 1, run + 1);
    }
  }

  /** Around a maximal run of newlines: the run becomes at most two, and each side is capped by itself. */
  lemma MaximalRunCapped(a: string, n: nat, b: string)
    requires (a == "" || a[|a| - 1] != '\n') && (b == "" || b[0] != '\n')
    ensures Capped(a + seq(n, _ => '\n') + b) == Capped(a) + seq(if n < 2 then n else 2, _ => '\n') + Capped(b)
  {
    var run := seq(n, _ => '\n');
    CapConcat(a + run, b, 0);
    if a == "" {
      assert a + run == run;
    } else {
      CapConcat(a, run, 0);
    }
    CapRun(n, 0);
    assert Capped(a + run) == Capped(a) + seq(if n < 2 then n else 2, _ => '\n');
    assert (a + run) + b == a + run + b;
    if a + run == "" {
      assert CapFrom(b, 0) == Capped(b);
    }
  }

  function Letters(s: string): string {
    if s == "" then "" else (if s[0] == '\n' then "" else [s[0]]) + Letters(s[1..])
  }

  /** Every other character stays, in order. */
  lemma {:induction false} CapKeepsLetters(s: string, run: nat)
    ensures Letters(CapFrom(s, run)) == Letters(s)
    decreases |s|
  {
    if s != "" {
      var next := if s[0] == '\n' then run + 1 else 0;
      CapKeepsLetters(s[1..], next);
      var rest := CapFrom(s[1..], next);
      assert ([s[0]] + rest)[1..] == rest;
      assert "" + rest == rest;
    }
  }
}

/** Splitting a long message at line ends or spaces (src/channels/telegram.rs). */
module SplitMessage {
  import opened Wrappers
  import opened Sequences
  import opened TextSearch

  /** The last index of `c` below `n`. */
  function LastIndex(s: string, c: char, n: nat): (r: Option<nat>)
    requires n <= |s|
    ensures r.Some? ==> r.value < n && s[r.value] == c && forall k | r.value < k < n :: s[k] != c
    ensures r.None? ==> forall k | 0 <= k < n :: s[k] != c
  {
    if n == 0 then None else if s[n - 1] == c then Some(n - 1) else LastIndex(s, c, n - 1)
  }

  /** Where the first `maxLen` characters are cut: at the last line end, else the last space, else not at
      all; a cut at the very start counts as none. */
  function CutAt(text: string, maxLen: nat): (cut: nat)
    requires 0 < maxLen < |text|
    ensures 0 < cut <= maxLen
    ensures cut < maxLen ==> text[cut] == '\n' || text[cut] == ' '
  {
    var line := LastIndex(text, '\n', maxLen);
    var space := LastIndex(text, ' ', maxLen);
    var cut := if line.Some? then line.value else if space.Some? then space.value else maxLen;
    if cut == 0 then maxLen else cut
  }

  /** A line end is preferred to a space and a later break to an earlier one; nothing to break at means a
      full chunk, and so does a text whose only line end is its first character. */
  lemma CutChoice(text: string, maxLen: nat)
    requires 0 < maxLen < |text|
    ensures var cut := CutAt(text, maxLen);
            && (cut < maxLen && text[cut] == ' ' ==> forall k | 0 <= k < maxLen :: text[k] != '\n')
            && (forall k | cut < k < maxLen :: text[k] != '\n')
            && (cut < maxLen && text[cut] == ' ' ==> forall k | cut < k < maxLen :: text[k] != ' ')
            && (cut == maxLen ==> text[0] == '\n' || forall k | 0 < k < maxLen :: text[k] != '\n' && text[k] != ' ')
  {
  }

  /** The chunks of a non-empty remainder. */
  function Chunks(text: string, maxLen: nat): seq<string>
    requires maxLen > 0
    decreases |text|
  {
    if text == "" then []
    else if |text| <= maxLen then [text]
    else
      var cut := CutAt(text, maxLen);
      [text[..cut]] + Chunks(TrimStart(text[cut..]), maxLen)
  }

  method Split(text: string, maxLen: nat) returns (chunks: seq<string>)
    requires maxLen > 0
    ensures chunks == if text == "" then [""] else Chunks(text, maxLen)
  {
    if |text| <= maxLen {
      return [text];
    }
    chunks := [];
    var remaining := text;
    while remaining != ""
      invariant chunks + Chunks(remaining, maxLen) == Chunks(text, maxLen)
      decreases |remaining|
    {
      if |remaining| <= maxLen {
        chunks := chunks + [remaining];
        break;
      }
      var line := LastIndex(remaining, '\n', maxLen);
      var space := LastIndex(remaining, ' ', maxLen);
      var splitAt := if line.Some? then line.value else if space.Some? then space.value else maxLen;
      if splitAt == 0 {
        splitAt := maxLen;
      }
      Regroup(chunks, [remaining[..splitAt]], Chunks(TrimStart(remaining[splitAt..]), maxLen));
      chunks := chunks + [remaining[..splitAt]];
      remaining := TrimStart(remaining[splitAt..]);
    }
  }

  /** Chunks in order, each followed by its gap. */
  function Woven(chunks: seq<string>, gaps: seq<string>): string
    requires |chunks| == |gaps|
  {
    if chunks == [] then "" else chunks[0] + gaps[0] + Woven(chunks[1..], gaps[1..])
  }

  lemma WovenCons(chunk: string, gap: string, chunks: seq<string>, gaps: seq<string>)
    requires |chunks| == |gaps|
    ensures Woven([chunk] + chunks, [gap] + gaps) == chunk + gap + Woven(chunks, gaps)
  {
    assert ([chunk] + chunks)[1..] == chunks && ([gap] + gaps)[1..] == gaps;
  }

  predicate Fits(chunks: seq<string>, maxLen: nat) {
    forall c | c in chunks :: 0 < |c| <= maxLen
  }

  predicate AllBlank(gaps: seq<string>) {
    forall g | g in gaps :: Blank(g)
  }

  /** Only full chunks may be cut where there was no whitespace. */
  predicate CutsAtBlanks(chunks: seq<string>, gaps: seq<string>, maxLen: nat) {
    |chunks| == |gaps| && forall i | 0 <= i < |chunks| - 1 :: |chunks[i]| < maxLen ==> gaps[i] != ""
  }

  lemma GapAfterCut(text: string, maxLen: nat) returns (gap: string)
    requires 0 < maxLen < |text|
    ensures var cut := CutAt(text, maxLen);
            && text == text[..cut] + gap + TrimStart(text[cut..]) && Blank(gap)
            && (cut < maxLen ==> gap != "")
  {
    var cut := CutAt(text, maxLen);
    var after := text[cut..];
    TrimStartDrops(after);
    gap := after[..|after| - |TrimStart(after)|];
    assert text == text[..cut] + after;
    Regroup(text[..cut], gap, TrimStart(after));
    assert after[0] == text[cut];
    assert gap == "" ==> after == TrimStart(after);
  }

  /** Every chunk is non-empty and fits; the text is the chunks in order with only whitespace between
      and after them; and a chunk that is neither full nor last is followed by whitespace. */
  lemma {:induction false} ChunksCover(text: string, maxLen: nat) returns (gaps: seq<string>)
    requires maxLen > 0
    ensures |gaps| == |Chunks(text, maxLen)| && Woven(Chunks(text, maxLen), gaps) == text
    ensures Fits(Chunks(text, maxLen), maxLen) && AllBlank(gaps)
    ensures CutsAtBlanks(Chunks(text, maxLen), gaps, maxLen)
    decreases |text|
  {
    if text == "" {
      gaps := [];
    } else if |text| <= maxLen {
      gaps := [""];
      WovenCons(text, "", [], []);
    } else {
      var cut := CutAt(text, maxLen);
      var rest := TrimStart(text[cut..]);
      var gap := GapAfterCut(text, maxLen);
      var more := ChunksCover(rest, maxLen);
      gaps := [gap] + more;
      WovenCons(text[..cut], gap, Chunks(rest, maxLen), more);
    }
  }
}
