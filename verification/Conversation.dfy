/** Turns of a conversation thread: printing them as messages, rebuilding them from messages,
    and dropping the oldest ones (src/agent/session.rs). */
module Conversation {
  import opened Wrappers
  import opened Chat

  datatype TurnState = TurnProcessing | TurnCompleted | TurnFailed | TurnInterrupted

  datatype Turn = Turn(
    number: nat, userInput: string, response: Option<string>, error: Option<string>, state: TurnState)

  function NewTurn(number: nat, input: string): Turn {
    Turn(number, input, None, None, TurnProcessing)
  }

  function CompletedTurn(t: Turn, response: string): Turn {
    t.(response := Some(response), state := TurnCompleted)
  }

  function FailedTurn(t: Turn, error: string): Turn {
    t.(error := Some(error), state := TurnFailed)
  }

  // ---------- printing ----------

  function TurnMessages(t: Turn): seq<ChatMessage> {
    [UserMessage(t.userInput)] + (if t.response.Some? then [AssistantMessage(t.response.value)] else [])
  }

  function Messages(turns: seq<Turn>): seq<ChatMessage> {
    if turns == [] then [] else Messages(turns[..|turns| - 1]) + TurnMessages(turns[|turns| - 1])
  }

  lemma {:induction false} MessagesConcat(a: seq<Turn>, b: seq<Turn>)
    ensures Messages(a + b) == Messages(a) + Messages(b)
  {
    if b == [] {
      assert a + b == a;
    } else {
      var b' := b[..|b| - 1];
      assert (a + b)[..|a + b| - 1] == a + b';
      MessagesConcat(a, b');
    }
  }

  /** Every turn prints at least its user message. */
  lemma {:induction false} MessagesLength(turns: seq<Turn>)
    ensures |turns| <= |Messages(turns)| <= 2 * |turns|
  {
    if turns != [] {
      MessagesLength(turns[..|turns| - 1]);
    }
  }

  // ---------- rebuilding ----------

  /** What `restore_from_messages` builds: each user message opens a turn, an assistant message
      directly after it completes that turn, and everything else is dropped. */
  function Rebuilt(ms: seq<ChatMessage>, number: nat): seq<Turn> {
    if ms == [] then []
    else if ms[0].role != User then Rebuilt(ms[1..], number)
    else if |ms| > 1 && ms[1].role == Assistant then
      [CompletedTurn(NewTurn(number, ms[0].content), ms[1].content)] + Rebuilt(ms[2..], number + 1)
    else
      [NewTurn(number, ms[0].content)] + Rebuilt(ms[1..], number + 1)
  }

  predicate NumberedFrom(turns: seq<Turn>, n: nat) {
    forall i | 0 <= i < |turns| :: turns[i].number == n + i
  }

  lemma {:induction false} RebuiltNumbered(ms: seq<ChatMessage>, n: nat)
    ensures NumberedFrom(Rebuilt(ms, n), n)
  {
    if ms == [] {
    } else if ms[0].role != User {
      RebuiltNumbered(ms[1..], n);
    } else if |ms| > 1 && ms[1].role == Assistant {
      RebuiltNumbered(ms[2..], n + 1);
    } else {
      RebuiltNumbered(ms[1..], n + 1);
    }
  }

  predicate SameExchanges(a: seq<Turn>, b: seq<Turn>) {
    |a| == |b| && forall i | 0 <= i < |a| :: a[i].userInput == b[i].userInput && a[i].response == b[i].response
  }

  /** Printing only looks at the exchanges. */
  lemma {:induction false} SameExchangesSameMessages(a: seq<Turn>, b: seq<Turn>)
    requires SameExchanges(a, b)
    ensures Messages(a) == Messages(b)
  {
    if a != [] {
      SameExchangesSameMessages(a[..|a| - 1], b[..|b| - 1]);
    }
  }

  lemma {:induction false} MessagesFirst(turns: seq<Turn>)
    requires turns != []
    ensures Messages(turns) == TurnMessages(turns[0]) + Messages(turns[1..])
  {
    assert turns == [turns[0]] + turns[1..];
    MessagesConcat([turns[0]], turns[1..]);
    assert Messages([turns[0]]) == TurnMessages(turns[0]) by {
      assert [turns[0]][..0] == [];
    }
  }

  lemma PrintConsed(t: Turn, rest: seq<Turn>)
    ensures Messages([t] + rest) == TurnMessages(t) + Messages(rest)
  {
    MessagesFirst([t] + rest);
  }

  /** A printed thread is empty or starts with a user message. */
  lemma MessagesStartWithUser(turns: seq<Turn>)
    ensures Messages(turns) == [] || Messages(turns)[0].role == User
  {
    if turns != [] {
      MessagesFirst(turns);
    }
  }

  /** Rebuilding a thread from its own messages gives back every exchange, in order, numbered by index. */
  lemma {:induction false} RebuildOwnMessages(turns: seq<Turn>, n: nat)
    ensures SameExchanges(Rebuilt(Messages(turns), n), turns)
    ensures NumberedFrom(Rebuilt(Messages(turns), n), n)
  {
    RebuiltNumbered(Messages(turns), n);
    if turns != [] {
      var rest := turns[1..];
      MessagesFirst(turns);
      MessagesStartWithUser(rest);
      RebuildOwnMessages(rest, n + 1);
      var ms := Messages(turns);
      var k := |TurnMessages(turns[0])|;
      assert ms[k..] == Messages(rest);
      var tail := Rebuilt(Messages(rest), n + 1);
      var head := Rebuilt(ms, n)[0];
      assert Rebuilt(ms, n) == [head] + tail;
      forall i | 0 <= i < |turns|
        ensures ([head] + tail)[i].userInput == turns[i].userInput && ([head] + tail)[i].response == turns[i].response
      {
        if i > 0 {
          assert ([head] + tail)[i] == tail[i - 1] && turns[i] == rest[i - 1];
        }
      }
    }
  }

  // ---------- what restore-then-print keeps of an arbitrary message list ----------

  /** Kept positions: every user message, and an assistant message directly after a user message. */
  predicate KeptAt(ms: seq<ChatMessage>, i: nat)
    requires i < |ms|
  {
    ms[i].role == User || (ms[i].role == Assistant && i > 0 && ms[i - 1].role == User)
  }

  function Plain(m: ChatMessage): ChatMessage {
    ChatMessage(m.role, m.content, None, None, [])
  }

  function KeptFrom(ms: seq<ChatMessage>, i: nat): seq<ChatMessage>
    requires i <= |ms|
    decreases |ms| - i
  {
    if i == |ms| then []
    else (if KeptAt(ms, i) then [Plain(ms[i])] else []) + KeptFrom(ms, i + 1)
  }

  lemma KeepPair(ms: seq<ChatMessage>, i: nat)
    requires i + 1 < |ms| && ms[i].role == User && ms[i + 1].role == Assistant
    ensures KeptFrom(ms, i) == [Plain(ms[i]), Plain(ms[i + 1])] + KeptFrom(ms, i + 2)
  {
    assert KeptFrom(ms, i + 1) == [Plain(ms[i + 1])] + KeptFrom(ms, i + 2);
  }

  lemma KeepExchange(ms: seq<ChatMessage>, i: nat, n: nat)
    requires i + 1 < |ms| && ms[i].role == User && ms[i + 1].role == Assistant
    ensures Messages(Rebuilt(ms[i..], n)) == [Plain(ms[i]), Plain(ms[i + 1])] + Messages(Rebuilt(ms[i + 2..], n + 1))
    ensures KeptFrom(ms, i) == [Plain(ms[i]), Plain(ms[i + 1])] + KeptFrom(ms, i + 2)
  {
    assert ms[i..][2..] == ms[i + 2..];
    PrintConsed(CompletedTurn(NewTurn(n, ms[i].content), ms[i + 1].content), Rebuilt(ms[i + 2..], n + 1));
    KeepPair(ms, i);
  }

  lemma KeepInput(ms: seq<ChatMessage>, i: nat, n: nat)
    requires i < |ms| && ms[i].role == User
    requires i + 1 == |ms| || ms[i + 1].role != Assistant
    ensures Messages(Rebuilt(ms[i..], n)) == [Plain(ms[i])] + Messages(Rebuilt(ms[i + 1..], n + 1))
    ensures KeptFrom(ms, i) == [Plain(ms[i])] + KeptFrom(ms, i + 1)
  {
    assert ms[i..][1..] == ms[i + 1..];
    PrintConsed(NewTurn(n, ms[i].content), Rebuilt(ms[i + 1..], n + 1));
  }

  lemma {:induction false} RestoreThenPrintFrom(ms: seq<ChatMessage>, i: nat, n: nat)
    requires i <= |ms|
    requires i == 0 || i == |ms| || ms[i].role != Assistant || ms[i - 1].role != User
    ensures Messages(Rebuilt(ms[i..], n)) == KeptFrom(ms, i)
    decreases |ms| - i
  {
    if i == |ms| {
    } else if ms[i].role != User {
      assert ms[i..][1..] == ms[i + 1..];
      RestoreThenPrintFrom(ms, i + 1, n);
      assert KeptFrom(ms, i) == KeptFrom(ms, i + 1);
    } else if i + 1 < |ms| && ms[i + 1].role == Assistant {
      RestoreThenPrintFrom(ms, i + 2, n + 1);
      KeepExchange(ms, i, n);
    } else {
      RestoreThenPrintFrom(ms, i + 1, n + 1);
      KeepInput(ms, i, n);
    }
  }

  /** Restore-then-print keeps exactly each user message and any assistant message directly after it. */
  lemma RestoreThenPrint(ms: seq<ChatMessage>)
    ensures Messages(Rebuilt(ms, 0)) == KeptFrom(ms, 0)
  {
    RestoreThenPrintFrom(ms, 0, 0);
    assert ms[0..] == ms;
  }

  /** Restore-then-print is the identity on printed threads, hence idempotent on any list. */
  lemma RestoreThenPrintIdempotent(ms: seq<ChatMessage>, turns: seq<Turn>)
    ensures Messages(Rebuilt(Messages(turns), 0)) == Messages(turns)
    ensures Messages(Rebuilt(Messages(Rebuilt(ms, 0)), 0)) == Messages(Rebuilt(ms, 0))
  {
    RebuildOwnMessages(turns, 0);
    SameExchangesSameMessages(Rebuilt(Messages(turns), 0), turns);
    RebuildOwnMessages(Rebuilt(ms, 0), 0);
    SameExchangesSameMessages(Rebuilt(Messages(Rebuilt(ms, 0)), 0), Rebuilt(ms, 0));
  }

  // ---------- truncation ----------

  function Renumbered(turns: seq<Turn>): (r: seq<Turn>) {
    seq(|turns|, i requires 0 <= i < |turns| => turns[i].(number := i))
  }

  /** Keep the `keep` most recent turns, renumbered; shorter threads stay as they are. */
  function Truncated(turns: seq<Turn>, keep: nat): seq<Turn> {
    if |turns| > keep then Renumbered(turns[|turns| - keep..]) else turns
  }

  /** Truncation removes a prefix of the printed messages, and removes nothing exactly when no turn goes. */
  lemma TruncatedMessages(turns: seq<Turn>, keep: nat)
    ensures var after := Truncated(turns, keep);
            && |after| == (if |turns| > keep then keep else |turns|)
            && |Messages(after)| <= |Messages(turns)|
            && Messages(after) == Messages(turns)[|Messages(turns)| - |Messages(after)|..]
            && (Messages(after) == Messages(turns) <==> |turns| <= keep)
  {
    if |turns| > keep {
      var cut := |turns| - keep;
      assert turns == turns[..cut] + turns[cut..];
      MessagesConcat(turns[..cut], turns[cut..]);
      SameExchangesSameMessages(Renumbered(turns[cut..]), turns[cut..]);
      MessagesLength(turns[..cut]);
    }
  }

  // ---------- the thread object's loops ----------

  class ConversationThread {
    var turns: seq<Turn>

    constructor ()
      ensures turns == []
    {
      turns := [];
    }

    constructor Load(loaded: seq<Turn>)
      ensures turns == loaded
    {
      turns := loaded;
    }

    method PrintMessages() returns (messages: seq<ChatMessage>)
      ensures messages == Messages(turns)
    {
      messages := [];
      for i := 0 to |turns|
        invariant messages == Messages(turns[..i])
      {
        messages := messages + [UserMessage(turns[i].userInput)];
        if turns[i].response.Some? {
          messages := messages + [AssistantMessage(turns[i].response.value)];
        }
        assert turns[..i + 1][..i] == turns[..i];
        assert messages == Messages(turns[..i]) + TurnMessages(turns[i]);
      }
      assert turns[..|turns|] == turns;
    }

    method RestoreFromMessages(messages: seq<ChatMessage>)
      modifies this
      ensures turns == Rebuilt(messages, 0)
    {
      turns := [];
      var i, number := 0, 0;
      while i < |messages|
        invariant 0 <= i <= |messages|
        invariant turns + Rebuilt(messages[i..], number) == Rebuilt(messages, 0)
      {
        var tail := messages[i..];
        assert tail[1..] == messages[i + 1..];
        var msg := messages[i];
        i := i + 1;
        if msg.role == User {
          var turn := NewTurn(number, msg.content);
          if i < |messages| && messages[i].role == Assistant {
            assert tail[2..] == messages[i + 1..];
            turn := CompletedTurn(turn, messages[i].content);
            i := i + 1;
          }
          assert Rebuilt(tail, number) == [turn] + Rebuilt(messages[i..], number + 1);
          turns := turns + [turn];
          number := number + 1;
        }
      }
    }

    method TruncateTurns(keep: nat)
      modifies this
      ensures turns == Truncated(old(turns), keep)
    {
      if |turns| > keep {
        turns := turns[|turns| - keep..];
        ghost var kept := turns;
        for i := 0 to |turns|
          invariant |turns| == |kept|
          invariant forall j | 0 <= j < i :: turns[j] == kept[j].(number := j)
          invariant forall j | i <= j < |turns| :: turns[j] == kept[j]
        {
          turns := turns[i := turns[i].(number := i)];
        }
      }
    }
  }
}
