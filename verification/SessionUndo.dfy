/** Undo over whole runs: the history stays within its limit and undo gives back the conversation
    as it was before the turn. */
module SessionUndo {
  import opened Wrappers
  import opened Chat
  import opened Conversation
  import opened Undo
  import opened Context
  import opened AgentLoop
  import opened Sessions

  ghost predicate SlotOk(slot: Slot) {
    && slot.thread.state != Processing
    && NumberedFrom(slot.thread.turns, 0)
    && HistoryOk(slot.history) && slot.history.maxCheckpoints == 20
    && (forall c | c in slot.history.undoStack :: Printed(c.messages))
  }

  ghost predicate SlotsOk(s: Session) {
    forall t | t in s.slots :: SlotOk(s.slots[t])
  }

  /** The context is full enough to be compacted, there are more turns than the strategy keeps, and no
      summary it needs fails. */
  predicate CompactsAway(turns: seq<Turn>, env: Surroundings) {
    var strategy := SuggestCompaction(Messages(turns));
    strategy.Some? && !SummaryFails(turns, strategy.value, env) && |turns| > KeepCount(strategy.value, env)
  }

  lemma AutoCompactedIsSafe(turns: seq<Turn>, env: Surroundings)
    ensures NumberedFrom(turns, 0) ==> NumberedFrom(AutoCompacted(turns, env), 0)
    ensures Messages(AutoCompacted(turns, env)) == Messages(turns) <==> !CompactsAway(turns, env)
  {
    var strategy := SuggestCompaction(Messages(turns));
    if strategy.Some? {
      CompactionIsSafe(turns, strategy.value, env);
      RenumberedLength(turns, KeepCount(strategy.value, env));
    }
  }

  lemma RenumberedLength(turns: seq<Turn>, keep: nat)
    ensures |Truncated(turns, keep)| == if |turns| > keep then keep else |turns|
  {
  }

  lemma CheckpointedMembers(h: History, c: Checkpoint)
    requires HistoryOk(h)
    ensures HistoryOk(Checkpointed(h, c)) && Checkpointed(h, c).maxCheckpoints == h.maxCheckpoints
    ensures forall d | d in Checkpointed(h, c).undoStack :: d in h.undoStack || d == c
  {
  }

  lemma SnocNumbered(turns: seq<Turn>, content: string)
    requires NumberedFrom(turns, 0)
    ensures NumberedFrom(turns + [NewTurn(|turns|, content)], 0)
  {
  }

  lemma CheckpointedPrinted(h: History, c: Checkpoint)
    requires HistoryOk(h) && Printed(c.messages) && forall d | d in h.undoStack :: Printed(d.messages)
    ensures forall d | d in Checkpointed(h, c).undoStack :: Printed(d.messages)
  {
    CheckpointedMembers(h, c);
  }

  lemma {:induction false} StartedIsOk(s: Session, i: Input)
    requires i.UserInput? && i.thread in s.slots && SlotOk(s.slots[i.thread])
    ensures var started := TurnStarted(s, i);
            && NumberedFrom(started.thread.turns, 0)
            && HistoryOk(started.history) && started.history.maxCheckpoints == 20
            && forall c | c in started.history.undoStack :: Printed(c.messages)
  {
    var Slot(t, h) := s.slots[i.thread];
    var turns := AutoCompacted(t.turns, i.env);
    var c := Checkpoint(s.nextCheckpoint, |turns| + 1, Messages(turns));
    AutoCompactedIsSafe(t.turns, i.env);
    SnocNumbered(turns, i.content);
    CheckpointedMembers(h, c);
    RestoreThenPrintIdempotent([], turns);
    CheckpointedPrinted(h, c);
  }

  lemma FinalizedIsOk(t: Thread, result: LoopResult)
    requires NumberedFrom(t.turns, 0)
    ensures NumberedFrom(Finalized(t, result).turns, 0) && Finalized(t, result).state != Processing
  {
  }

  lemma {:induction false} UserInputKeepsSlots(s: Session, i: Input)
    requires SlotsOk(s) && i.UserInput?
    ensures SlotsOk(UserInputStep(s, i))
  {
    if TurnStarts(s, i) {
      var started := TurnStarted(s, i);
      StartedIsOk(s, i);
      FinalizedIsOk(started.thread, UserInputLoop(s, i).result);
      assert UserInputStep(s, i).slots
          == s.slots[i.thread := started.(thread := Finalized(started.thread, UserInputLoop(s, i).result))];
    }
  }

  lemma {:induction false} ApprovalKeepsSlots(s: Session, i: Input)
    requires SlotsOk(s) && i.ApprovalAnswer?
    ensures SlotsOk(ApprovalStep(s, i))
  {
    if AnswerMatches(s, i) && i.approved {
      var Slot(t, h) := s.slots[i.thread];
      var last := Finalized(t.(state := Processing, pending := None), ResumedLoop(s, i).result);
      FinalizedIsOk(t.(state := Processing, pending := None), ResumedLoop(s, i).result);
      assert ApprovalStep(s, i).slots == s.slots[i.thread := Slot(last, h)];
    }
  }

  lemma GoingBackKeepsSlots(s: Session, id: nat, ms: seq<ChatMessage>, h: History, nextId: nat)
    requires SlotsOk(s) && id in s.slots
    requires HistoryOk(h) && h.maxCheckpoints == 20
    requires forall c | c in h.undoStack :: c in s.slots[id].history.undoStack
    ensures SlotsOk(WithTimeline(s, id, Timeline(Rebuilt(ms, 0), h, nextId)))
  {
    RebuiltNumbered(ms, 0);
  }

  lemma UndoRedoKeepSlots(s: Session, id: nat)
    requires SlotsOk(s)
    ensures SlotsOk(UndoSession(s, id)) && SlotsOk(RedoSession(s, id))
  {
    if id in s.slots {
      var h := s.slots[id].history;
      if h.undoStack != [] {
        var t := UndoStep(TimelineOf(s, id));
        GoingBackKeepsSlots(s, id, h.undoStack[|h.undoStack| - 1].messages, t.history, t.nextId);
      }
      if h.redoStack != [] {
        var t := RedoStep(TimelineOf(s, id));
        GoingBackKeepsSlots(s, id, h.redoStack[|h.redoStack| - 1].messages, t.history, t.nextId);
      }
    }
  }

  lemma ResumeKeepsSlots(s: Session, id: nat, checkpointId: nat)
    requires SlotsOk(s)
    ensures SlotsOk(ResumeSession(s, id, checkpointId))
  {
    if id in s.slots {
      var h := s.slots[id].history;
      var p := Position(h.undoStack, checkpointId, 0);
      if p.Some? {
        assert forall d | d in h.undoStack[..p.value] :: d in h.undoStack;
        GoingBackKeepsSlots(s, id, h.undoStack[p.value].messages, RestoredTo(h, checkpointId), s.nextCheckpoint);
      }
    }
  }

  lemma CompactKeepsSlots(s: Session, id: nat, env: Surroundings)
    requires SlotsOk(s)
    ensures SlotsOk(CompactStep(s, id, env))
  {
    if id in s.slots {
      var turns := s.slots[id].thread.turns;
      var suggested := SuggestCompaction(Messages(turns));
      CompactionIsSafe(turns, if suggested.Some? then suggested.value else Summarize(5), env);
    }
  }

  lemma StopKeepsSlots(s: Session, id: nat)
    requires SlotsOk(s)
    ensures SlotsOk(InterruptStep(s, id)) && SlotsOk(ClearStep(s, id))
  {
  }

  lemma {:induction false} StepKeepsSlots(s: Session, i: Input)
    requires SlotsOk(s)
    ensures SlotsOk(Step(s, i))
  {
    match i
    case UserInput(_, _, _, _, _, _) => UserInputKeepsSlots(s, i);
    case ApprovalAnswer(_, _, _, _, _, _) => ApprovalKeepsSlots(s, i);
    case InterruptTurn(id) => StopKeepsSlots(s, id);
    case ClearThread(id) => StopKeepsSlots(s, id);
    case UndoTurn(id) => UndoRedoKeepSlots(s, id);
    case RedoTurn(id) => UndoRedoKeepSlots(s, id);
    case ResumeFrom(id, c) => ResumeKeepsSlots(s, id, c);
    case CompactThread(id, env) => CompactKeepsSlots(s, id, env);
    case OpenThread(_, ms) => RebuiltNumbered(ms, 0);
  }

  /** After every run: no thread is left processing, turn number equals index, at most 20 checkpoints. */
  lemma {:induction false} RunKeepsSlots(inputs: seq<Input>)
    ensures SlotsOk(Run(NEW_SESSION, inputs))
  {
    if inputs != [] {
      RunKeepsSlots(inputs[..|inputs| - 1]);
      StepKeepsSlots(Run(NEW_SESSION, inputs[..|inputs| - 1]), inputs[|inputs| - 1]);
    }
  }

  /** Inputs that may come between a turn and its undo: approval answers, interrupts and compaction in
      that thread, and anything at all in other threads. */
  predicate LeavesHistory(i: Input, thread: nat) {
    i.thread != thread || i.ApprovalAnswer? || i.InterruptTurn? || i.CompactThread? || i.OpenThread?
  }

  lemma {:induction false} HistoryUntouched(s: Session, between: seq<Input>, thread: nat)
    requires thread in s.slots && forall k | 0 <= k < |between| :: LeavesHistory(between[k], thread)
    ensures thread in Run(s, between).slots && Run(s, between).slots[thread].history == s.slots[thread].history
  {
    if between != [] {
      HistoryUntouched(s, between[..|between| - 1], thread);
    }
  }

  /** Undo after a turn, however many approvals, interrupts or other threads' messages came in between,
      restores the messages the turn started from. These are the messages before the turn exactly when
      no turn was compacted away at its start. */
  lemma {:induction false} UndoRestoresMessagesBeforeTurn(s: Session, i: Input, between: seq<Input>)
    requires SlotsOk(s) && i.UserInput? && TurnStarts(s, i)
    requires forall k | 0 <= k < |between| :: LeavesHistory(between[k], i.thread)
    ensures var after := Step(Run(Step(s, i), between), UndoTurn(i.thread));
            var before := s.slots[i.thread].thread.turns;
            && i.thread in after.slots && after.slots[i.thread].thread.state == Idle
            && Messages(after.slots[i.thread].thread.turns) == Messages(AutoCompacted(before, i.env))
            && (Messages(after.slots[i.thread].thread.turns) == Messages(before) <==> !CompactsAway(before, i.env))
  {
    var turns := AutoCompacted(s.slots[i.thread].thread.turns, i.env);
    CheckpointTaken(s, i);
    HistoryUntouched(Step(s, i), between, i.thread);
    UndoLandsOnNewest(Run(Step(s, i), between), i.thread);
    RestoreThenPrintIdempotent([], turns);
    AutoCompactedIsSafe(s.slots[i.thread].thread.turns, i.env);
  }

  lemma {:induction false} CheckpointTaken(s: Session, i: Input)
    requires SlotsOk(s) && i.UserInput? && TurnStarts(s, i)
    ensures i.thread in Step(s, i).slots
    ensures var stack := Step(s, i).slots[i.thread].history.undoStack;
            stack != [] && stack[|stack| - 1].messages == Messages(AutoCompacted(s.slots[i.thread].thread.turns, i.env))
  {
    var h := TurnStarted(s, i).history;
    assert Step(s, i).slots[i.thread].history == h;
  }

  lemma {:induction false} UndoLandsOnNewest(s: Session, id: nat)
    requires id in s.slots && s.slots[id].history.undoStack != []
    ensures var after := Step(s, UndoTurn(id));
            var stack := s.slots[id].history.undoStack;
            && id in after.slots && after.slots[id].thread.state == Idle
            && after.slots[id].thread.turns == Rebuilt(stack[|stack| - 1].messages, 0)
  {
  }

  // ---------- failing inputs ----------

  function Ask(content: string, env: Surroundings): Input {
    UserInput(0, content, true, env, None, [ModelText("b", false)])
  }

  /** A plain question and answer in a thread too small to compact. */
  lemma {:induction false} AnswerStep(s: Session, content: string, env: Surroundings)
    requires 0 in s.slots && s.slots[0].thread.state == Idle
    requires SuggestCompaction(Messages(s.slots[0].thread.turns)).None?
    ensures var after, turns := Step(s, Ask(content, env)), s.slots[0].thread.turns;
            && 0 in after.slots && after.slots[0].thread.state == Idle
            && after.slots[0].thread.turns == turns + [CompletedTurn(NewTurn(|turns|, content), "b")]
            && after.slots[0].history
               == Checkpointed(s.slots[0].history, Checkpoint(s.nextCheckpoint, |turns| + 1, Messages(turns)))
  {
    var i, started := Ask(content, env), TurnStarted(s, Ask(content, env));
    var context := WithSystemPrompt(Messages(started.thread.turns), None);
    assert Iterate(0, ReplyAt(i.script, 0), 0, false, context, s.autoApproved, s.nextRequest)
        == Stop(Response("b"), [ModelCall(0, context)]);
    assert UserInputLoop(s, i).result == Response("b");
    assert Step(s, i).slots[0] == started.(thread := Finalized(started.thread, Response("b")));
  }

  lemma SmallThread(a: string, b: string)
    requires |a| == |b| == 1
    ensures SuggestCompaction([]).None? && SuggestCompaction([UserMessage(a), AssistantMessage(b)]).None?
  {
    var ms := [UserMessage(a), AssistantMessage(b)];
    assert a[..0] == "" && b[..0] == "";
    assert WordCount(a) <= 1 && WordCount(b) <= 1;
    assert ms[..1] == [UserMessage(a)] && ms[..1][..0] == [];
    assert Tokens(ms[..1]) == MessageTokens(ms[0]);
    assert Tokens(ms) == MessageTokens(ms[0]) + MessageTokens(ms[1]);
  }

  lemma RunLast(s: Session, inputs: seq<Input>, i: Input)
    ensures Run(s, inputs + [i]) == Step(Run(s, inputs), i)
  {
    assert (inputs + [i])[..|inputs|] == inputs;
  }

  /** A new thread with one exchange. */
  lemma {:induction false} OneExchange(env: Surroundings)
    ensures var s := Run(NEW_SESSION, [OpenThread(0, [])] + [Ask("a", env)]);
            && 0 in s.slots && s.slots[0].thread.state == Idle
            && s.slots[0].thread.turns == [CompletedTurn(NewTurn(0, "a"), "b")]
            && s.slots[0].history.maxCheckpoints == 20 && |s.slots[0].history.undoStack| == 1
  {
    RunLast(NEW_SESSION, [], OpenThread(0, []));
    assert [] + [OpenThread(0, [])] == [OpenThread(0, [])];
    var empty := Run(NEW_SESSION, [OpenThread(0, [])]);
    RunLast(NEW_SESSION, [OpenThread(0, [])], Ask("a", env));
    SmallThread("a", "b");
    AnswerStep(empty, "a", env);
  }

  /** Two turns, two undos: the thread keeps its first exchange instead of becoming empty as it was
      before the first turn. */
  lemma {:induction false} SecondUndoDoesNotStepBack(env: Surroundings)
    ensures var two := [OpenThread(0, [])] + [Ask("a", env)] + [Ask("c", env)];
            var end := Run(NEW_SESSION, two + [UndoTurn(0)] + [UndoTurn(0)]);
            0 in end.slots && Messages(end.slots[0].thread.turns) == [UserMessage("a"), AssistantMessage("b")] != []
  {
    var one := [OpenThread(0, [])] + [Ask("a", env)];
    var two := one + [Ask("c", env)];
    OneExchange(env);
    var s := Run(NEW_SESSION, one);
    var turn := CompletedTurn(NewTurn(0, "a"), "b");
    assert Messages([turn]) == [UserMessage("a"), AssistantMessage("b")] by {
      PrintConsed(turn, []);
      assert [turn] + [] == [turn];
    }
    SmallThread("a", "b");
    RunLast(NEW_SESSION, one, Ask("c", env));
    AnswerStep(s, "c", env);
    var s2 := Run(NEW_SESSION, two);
    var stack := s2.slots[0].history.undoStack;
    assert stack[|stack| - 1].messages == Messages([turn]);
    RunLast(NEW_SESSION, two, UndoTurn(0));
    UndoLandsOnNewest(s2, 0);
    var s3 := Step(s2, UndoTurn(0));
    assert s3.slots[0].history.undoStack == stack;
    RunLast(NEW_SESSION, two + [UndoTurn(0)], UndoTurn(0));
    UndoLandsOnNewest(s3, 0);
    RestoreThenPrintIdempotent([], [turn]);
  }

  /** A history of `n` one-word messages. */
  function Chatter(n: nat): (ms: seq<ChatMessage>)
    ensures |ms| == n && forall i | 0 <= i < n :: ms[i] == UserMessage("a")
  {
    seq(n, _ => UserMessage("a"))
  }

  lemma {:induction false} ChatterRebuilt(n: nat, number: nat)
    ensures |Rebuilt(Chatter(n), number)| == n && Messages(Rebuilt(Chatter(n), number)) == Chatter(n)
    decreases n
  {
    if n > 0 {
      assert Chatter(n)[1..] == Chatter(n - 1);
      ChatterRebuilt(n - 1, number + 1);
      PrintConsed(NewTurn(number, "a"), Rebuilt(Chatter(n - 1), number + 1));
      assert [UserMessage("a")] + Chatter(n - 1) == Chatter(n);
    }
  }

  lemma {:induction false} ChatterTokens(n: nat)
    ensures Tokens(Chatter(n)) == 5 * n
  {
    if n > 0 {
      assert Chatter(n)[..n - 1] == Chatter(n - 1);
      ChatterTokens(n - 1);
      assert "a"[..0] == "";
      assert WordCount("a") == 1;
    }
  }

  lemma {:induction false} ChatterCompacts(n: nat, env: Surroundings)
    requires n >= CONTEXT_LIMIT * 80 / 100 / 5 && env.summary.Some?
    ensures CompactsAway(Rebuilt(Chatter(n), 0), env)
  {
    ChatterFull(n);
    FullSuggests(Messages(Rebuilt(Chatter(n), 0)));
  }

  lemma {:induction false} ChatterFull(n: nat)
    ensures |Rebuilt(Chatter(n), 0)| == n && Tokens(Messages(Rebuilt(Chatter(n), 0))) == 5 * n
  {
    ChatterRebuilt(n, 0);
    ChatterTokens(n);
  }

  lemma FullSuggests(ms: seq<ChatMessage>)
    requires Tokens(ms) >= CONTEXT_LIMIT * 80 / 100
    ensures SuggestCompaction(ms).Some?
    ensures SuggestCompaction(ms).value in {Truncate(3), Summarize(5), MoveToWorkspace}
  {
  }

  lemma {:induction false} OpenedThread(ms: seq<ChatMessage>)
    ensures var s := Run(NEW_SESSION, [OpenThread(0, ms)]);
            SlotsOk(s) && 0 in s.slots && s.slots[0].thread.turns == Rebuilt(ms, 0) && s.slots[0].thread.state == Idle
  {
    RunLast(NEW_SESSION, [], OpenThread(0, ms));
    assert [] + [OpenThread(0, ms)] == [OpenThread(0, ms)];
    RunKeepsSlots([OpenThread(0, ms)]);
  }

  /** A long stored conversation is opened and a question asked: undoing it does not give the
      conversation back. */
  lemma {:induction false} UndoLosesCompactedTurns(n: nat, env: Surroundings)
    requires n >= CONTEXT_LIMIT * 80 / 100 / 5 && env.summary.Some?
    ensures var s := Run(NEW_SESSION, [OpenThread(0, Chatter(n))]);
            && 0 in s.slots && CompactsAway(s.slots[0].thread.turns, env)
            && var after := Step(Step(s, Ask("a", env)), UndoTurn(0));
               0 in after.slots && Messages(after.slots[0].thread.turns) != Messages(s.slots[0].thread.turns)
  {
    OpenedThread(Chatter(n));
    ChatterCompacts(n, env);
    UndoRestoresMessagesBeforeTurn(Run(NEW_SESSION, [OpenThread(0, Chatter(n))]), Ask("a", env), []);
  }
}
