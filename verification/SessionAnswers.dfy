/** What each message handler leaves behind, said of the messages, the states and the events themselves
    (src/agent/agent_loop.rs, src/agent/approval.rs, src/agent/commands.rs). */
module SessionAnswers {
  import opened Wrappers
  import opened Sequences
  import opened Filtering
  import opened Chat
  import opened Conversation
  import opened Undo
  import opened Context
  import opened AgentLoop
  import opened LoopAnswers
  import opened Sessions
  import opened Approval
  import opened SessionSafety
  import opened SessionUndo

  predicate OthersUntouched(s: Session, after: Session, id: nat) {
    after.slots - {id} == s.slots - {id}
  }

  // ---------- starting a turn ----------

  lemma {:induction false} OnlyUserAndAssistant(turns: seq<Turn>)
    ensures forall m | m in Messages(turns) :: m.role == User || m.role == Assistant
  {
    if turns != [] {
      OnlyUserAndAssistant(turns[..|turns| - 1]);
    }
  }

  /** The configured prompt, as the one message it becomes. */
  function PromptMessages(prompt: Option<string>): seq<ChatMessage> {
    if prompt.None? then [] else [ChatMessage(System, prompt.value, None, None, [])]
  }

  /** The conversation kept, and the new question. */
  function Asked(kept: seq<Turn>, content: string): seq<ChatMessage> {
    Messages(kept) + [ChatMessage(User, content, None, None, [])]
  }

  lemma {:induction false} StartedContext(kept: seq<Turn>, content: string, prompt: Option<string>)
    ensures Messages(kept + [NewTurn(|kept|, content)]) == Asked(kept, content)
    ensures WithSystemPrompt(Asked(kept, content), prompt) == PromptMessages(prompt) + Asked(kept, content)
  {
    var turns := kept + [NewTurn(|kept|, content)];
    assert turns[..|turns| - 1] == kept;
    OnlyUserAndAssistant(turns);
    EmptyPrefix(Asked(kept, content));
  }

  /** The loop's result, as the thread records it. */
  predicate Recorded(t: Thread, result: LoopResult, asked: seq<ChatMessage>) {
    match result
    case Response(text) =>
      t.state == Idle && Messages(t.turns) == asked + [ChatMessage(Assistant, text, None, None, [])]
    case NeedApproval(p) => t.state == AwaitingApproval && t.pending == Some(p) && Messages(t.turns) == asked
    case LoopError(_) => t.state == Idle && Messages(t.turns) == asked
  }

  lemma {:induction false} LastTurnRecords(turns: seq<Turn>, last: Turn)
    requires turns != [] && last.userInput == turns[|turns| - 1].userInput && turns[|turns| - 1].response.None?
    ensures Messages(LastTurnSet(turns, last))
            == Messages(turns) + if last.response.Some? then [AssistantMessage(last.response.value)] else []
  {
    var set0, n := LastTurnSet(turns, last), |turns| - 1;
    assert set0[..n] == turns[..n] && set0[n] == last;
  }

  lemma {:induction false} FinalizedRecords(t: Thread, result: LoopResult)
    requires t.turns != [] && t.turns[|t.turns| - 1].response.None?
    ensures Recorded(Finalized(t, result), result, Messages(t.turns))
  {
    var last := t.turns[|t.turns| - 1];
    match result
    case Response(text) => LastTurnRecords(t.turns, CompletedTurn(last, text));
    case NeedApproval(_) =>
    case LoopError(e) => LastTurnRecords(t.turns, FailedTurn(last, e));
  }

  lemma {:induction false} SurroundedShows(front: seq<Event>, events: seq<Event>, back: seq<Event>)
    requires (forall e | e in front :: !e.ModelCall?) && (forall e | e in back :: !e.ModelCall?)
    ensures ShownContexts(front + events + back) == ShownContexts(events)
  {
    NoneShown(front);
    NoneShown(back);
    ShownConcat(front + events, back);
    ShownConcat(front, events);
    EmptyPrefix(ShownContexts(events));
  }

  /** The events of a turn: what the loop did, between a note that it starts and the notes that it ended. */
  lemma {:induction false} TurnEvents(s: Session, i: Input)
    requires i.UserInput? && TurnStarts(s, i)
    ensures var out, after := UserInputLoop(s, i), Step(s, i);
            && s.trace <= after.trace
            && ShownContexts(after.trace[|s.trace|..]) == ShownContexts(out.events)
  {
    var out, after := UserInputLoop(s, i), Step(s, i);
    var front, back := [Status(i.thread, Thinking)], FinalEvents(i.thread, out.result);
    assert after.trace == s.trace + (front + out.events + back);
    assert after.trace[|s.trace|..] == front + out.events + back;
    SurroundedShows(front, out.events, back);
  }

  lemma {:induction false} TurnLoop(s: Session, i: Input)
    requires i.UserInput? && TurnStarts(s, i)
    ensures var kept := AutoCompacted(s.slots[i.thread].thread.turns, i.env);
            var context := PromptMessages(i.systemPrompt) + Asked(kept, i.content);
            UserInputLoop(s, i) == RunLoop(i.thread, i.script, 0, false, context, s.autoApproved, {}, s.nextRequest)
  {
    StartedContext(AutoCompacted(s.slots[i.thread].thread.turns, i.env), i.content, i.systemPrompt);
  }

  lemma {:induction false} TurnSlot(s: Session, i: Input)
    requires i.UserInput? && TurnStarts(s, i)
    ensures var kept := AutoCompacted(s.slots[i.thread].thread.turns, i.env);
            var after := Step(s, i);
            && i.thread in after.slots && OthersUntouched(s, after, i.thread)
            && after.autoApproved == s.autoApproved
            && Recorded(after.slots[i.thread].thread, UserInputLoop(s, i).result, Asked(kept, i.content))
  {
    var kept := AutoCompacted(s.slots[i.thread].thread.turns, i.env);
    var started := TurnStarted(s, i).thread;
    StartedContext(kept, i.content, i.systemPrompt);
    FinalizedRecords(started, UserInputLoop(s, i).result);
    assert Step(s, i).slots[i.thread].thread == Finalized(started, UserInputLoop(s, i).result);
  }

  /** A pause ends with the request itself and the notice of it; nothing else is announced as one. */
  predicate Announced(trace: seq<Event>, thread: nat, result: LoopResult) {
    result.NeedApproval? ==>
      var p, n := result.pending, |trace|;
      && n >= 3 && trace[n - 3] == Request(thread, p)
      && trace[n - 1] == Status(thread, ApprovalNeeded(p.requestId, p.call.name))
  }

  lemma AnnouncedLast(trace: seq<Event>, thread: nat, result: LoopResult)
    ensures Announced(trace + FinalEvents(thread, result), thread, result)
  {
  }

  lemma RegroupTurn<T>(trace: seq<T>, note: seq<T>, events: seq<T>, back: seq<T>)
    ensures trace + (note + events + back) == (trace + (note + events)) + back
  {
  }

  /** A started turn: the model is first shown the configured prompt, if there is one, then the conversation
      kept and the new question, and nothing else; every later context has grown by the reply to the one
      before; the thread records the question and the result; other threads are untouched. */
  lemma {:induction false} TurnAnswer(s: Session, i: Input) returns (result: LoopResult)
    requires i.UserInput? && i.accepted && i.thread in s.slots
    requires s.slots[i.thread].thread.state == Idle || s.slots[i.thread].thread.state == Interrupted
    ensures var kept := AutoCompacted(s.slots[i.thread].thread.turns, i.env);
            var after := Step(s, i);
            && i.thread in after.slots && OthersUntouched(s, after, i.thread)
            && Recorded(after.slots[i.thread].thread, result, Asked(kept, i.content))
            && s.trace <= after.trace && |s.trace| < |after.trace|
            && after.trace[|s.trace|] == Status(i.thread, Thinking) && Announced(after.trace, i.thread, result)
            && var shown := ShownContexts(after.trace[|s.trace|..]);
               && shown != [] && shown[0] == PromptMessages(i.systemPrompt) + Asked(kept, i.content)
               && Told(result, shown, i.script, 0, false, shown[0], s.autoApproved, {})
  {
    var kept := AutoCompacted(s.slots[i.thread].thread.turns, i.env);
    var context := PromptMessages(i.systemPrompt) + Asked(kept, i.content);
    TurnEvents(s, i);
    TurnLoop(s, i);
    TurnSlot(s, i);
    LoopAnswer(i.thread, i.script, 0, false, context, s.autoApproved, {}, s.nextRequest);
    result := UserInputLoop(s, i).result;
    AnnouncedLast(s.trace + ([Status(i.thread, Thinking)] + UserInputLoop(s, i).events), i.thread, result);
    RegroupTurn(s.trace, [Status(i.thread, Thinking)], UserInputLoop(s, i).events, FinalEvents(i.thread, result));
  }

  /** A message for a thread that is unknown or busy, or that is rejected, changes nothing. */
  lemma RefusedInput(s: Session, i: Input)
    requires i.UserInput?
    requires || i.thread !in s.slots || !i.accepted
             || s.slots[i.thread].thread.state in {Processing, AwaitingApproval, Completed}
    ensures Step(s, i) == s
  {
  }

  // ---------- answering a request ----------

  /** An approved answer: the very call that waited runs, with its outcome; "always" adds its tool and
      nothing else does; the loop resumes from the saved context with the call's report appended. */
  lemma {:induction false} ApprovedAnswer(s: Session, i: Input) returns (result: LoopResult)
    requires i.ApprovalAnswer? && i.approved && i.thread in s.slots
    requires s.slots[i.thread].thread.state == AwaitingApproval && s.slots[i.thread].thread.pending.Some?
    requires i.requestId.None? || i.requestId.value == s.slots[i.thread].thread.pending.value.requestId
    ensures var t, after := s.slots[i.thread].thread, Step(s, i);
            var p := Proposal(t.pending.value.call, true, true, i.outcome);
            && after.autoApproved == s.autoApproved + (if i.always then {p.call.name} else {})
            && i.thread in after.slots && OthersUntouched(s, after, i.thread)
            && (result.NeedApproval? ==> after.slots[i.thread].thread.pending == Some(result.pending))
            && after.slots[i.thread].thread.state == (if result.NeedApproval? then AwaitingApproval else Idle)
            && s.trace <= after.trace
            && var events := after.trace[|s.trace|..];
               && Executed(events) != [] && Executes(Executed(events)[0], i.thread, p)
               && var shown := ShownContexts(events);
                  && shown != [] && |shown[0]| == |t.pending.value.context| + 1
                  && shown[0][..|t.pending.value.context|] == t.pending.value.context
                  && Reports(shown[0][|t.pending.value.context|], p)
                  && Told(result, shown, i.script, 0, true, shown[0], after.autoApproved, {})
  {
    var pending := s.slots[i.thread].thread.pending.value;
    var context := pending.context + [ResultMessage(pending.call, i.outcome)];
    result := ResumedLoop(s, i).result;
    LoopAnswer(i.thread, i.script, 0, true, context, AutoApprovedAfter(s, i), {}, s.nextRequest);
    ApprovedEvents(s, i);
    ApprovedSlots(s, i);
  }

  lemma {:induction false} ApprovedSlots(s: Session, i: Input)
    requires i.ApprovalAnswer? && AnswerMatches(s, i) && i.approved
    ensures var t, after, result := s.slots[i.thread].thread, Step(s, i), ResumedLoop(s, i).result;
            && after.autoApproved == s.autoApproved + (if i.always then {t.pending.value.call.name} else {})
            && i.thread in after.slots && OthersUntouched(s, after, i.thread)
            && (result.NeedApproval? ==> after.slots[i.thread].thread.pending == Some(result.pending))
            && after.slots[i.thread].thread.state == (if result.NeedApproval? then AwaitingApproval else Idle)
  {
    var t, result := s.slots[i.thread].thread, ResumedLoop(s, i).result;
    var last := Finalized(t.(state := Processing, pending := None), result);
    assert Step(s, i).slots == s.slots[i.thread := s.slots[i.thread].(thread := last)];
  }

  lemma {:induction false} ApprovedEvents(s: Session, i: Input)
    requires i.ApprovalAnswer? && AnswerMatches(s, i) && i.approved
    ensures var p := Proposal(s.slots[i.thread].thread.pending.value.call, true, true, i.outcome);
            var after := Step(s, i);
            && s.trace <= after.trace
            && var events := after.trace[|s.trace|..];
               && ShownContexts(events) == ShownContexts(ResumedLoop(s, i).events)
               && Executed(events) != [] && Executes(Executed(events)[0], i.thread, p)
  {
    var call, out := s.slots[i.thread].thread.pending.value.call, ResumedLoop(s, i);
    var answer := [Answer(i.thread, i.requestId, true, i.always)];
    var run, back := Execution(i.thread, call, true, true, i.outcome), FinalEvents(i.thread, out.result);
    var after := Step(s, i);
    assert after.trace == s.trace + (answer + run + out.events + back);
    assert after.trace[|s.trace|..] == answer + run + out.events + back;
    SurroundedShows(answer + run, out.events, back);
    ApprovedExecutes(i.thread, call, i.outcome, answer[0], out.events + back);
    Regroup(answer + run, out.events, back);
  }

  lemma {:induction false} ApprovedExecutes(
    thread: nat, call: ToolCall, outcome: Outcome, answer: Event, rest: seq<Event>)
    requires answer.Answer?
    ensures var executed := Executed([answer] + Execution(thread, call, true, true, outcome) + rest);
            executed != [] && Executes(executed[0], thread, Proposal(call, true, true, outcome))
  {
    var run := Execution(thread, call, true, true, outcome);
    var started, execute, more := run[0], run[1], run[2..];
    assert [answer] + run + rest == [answer, started] + ([execute] + (more + rest));
    ExecutedConcat([answer, started], [execute] + (more + rest));
    ExecutedConcat([execute], more + rest);
    FilterNone([answer, started], IsExecute());
    FilterOne(execute, IsExecute());
  }

  lemma {:induction false} NothingHappened(trace: seq<Event>, events: seq<Event>)
    requires forall e | e in events :: !e.Execute? && !e.ModelCall?
    ensures Executed((trace + events)[|trace|..]) == [] && ShownContexts((trace + events)[|trace|..]) == []
  {
    assert (trace + events)[|trace|..] == events;
    FilterNone(events, IsExecute());
    NoneShown(events);
  }

  /** A rejection runs nothing, asks the model nothing and frees the thread. */
  lemma {:induction false} RejectedAnswer(s: Session, i: Input)
    requires i.ApprovalAnswer? && AnswerMatches(s, i) && !i.approved
    ensures var after := Step(s, i);
            && after.autoApproved == s.autoApproved && OthersUntouched(s, after, i.thread)
            && s.trace <= after.trace
            && Executed(after.trace[|s.trace|..]) == [] && ShownContexts(after.trace[|s.trace|..]) == []
            && i.thread in after.slots
            && after.slots[i.thread].thread == s.slots[i.thread].thread.(state := Idle, pending := None)
  {
    var events := [Answer(i.thread, i.requestId, i.approved, i.always)] + [Status(i.thread, Note)];
    assert Step(s, i).trace == s.trace + events;
    NothingHappened(s.trace, events);
  }

  /** An answer that names another request, or comes to a thread that waits for none, is only noted. */
  lemma {:induction false} StrayAnswer(s: Session, i: Input)
    requires i.ApprovalAnswer?
    requires || i.thread !in s.slots || s.slots[i.thread].thread.state != AwaitingApproval
             || s.slots[i.thread].thread.pending.None?
             || (i.requestId.Some? && i.requestId.value != s.slots[i.thread].thread.pending.value.requestId)
    ensures Step(s, i) == s.(trace := s.trace + [Answer(i.thread, i.requestId, i.approved, i.always)])
  {
  }

  // ---------- no needless requests ----------

  /** The model proposed it while the message was handled. */
  predicate ProposedIn(script: seq<Reply>, p: Proposal) {
    exists r :: r in script && r.ModelCalls? && p in r.proposals
  }

  lemma {:induction false} ToldAsks(
    result: LoopResult, shown: seq<seq<ChatMessage>>, script: seq<Reply>, resumed: bool, context: seq<ChatMessage>,
    autoApproved: set<string>) returns (p: Proposal)
    requires Told(result, shown, script, 0, resumed, context, autoApproved, {}) && result.NeedApproval?
    ensures ProposedIn(script, p) && p.call == result.pending.call && NeedsAnswer(p, autoApproved)
  {
    var reply := ReplyAt(script, |shown| - 1);
    assert reply in script;
    p :| p in reply.proposals && p.call == result.pending.call && NeedsAnswer(p, autoApproved);
  }

  lemma {:induction false} LoopAsks(
    thread: nat, script: seq<Reply>, resumed: bool, context: seq<ChatMessage>, autoApproved: set<string>,
    requestId: nat)
    ensures var result := RunLoop(thread, script, 0, resumed, context, autoApproved, {}, requestId).result;
            result.NeedApproval? ==>
              exists p :: ProposedIn(script, p) && p.call == result.pending.call && NeedsAnswer(p, autoApproved)
  {
    var out := RunLoop(thread, script, 0, resumed, context, autoApproved, {}, requestId);
    LoopAnswer(thread, script, 0, resumed, context, autoApproved, {}, requestId);
    if out.result.NeedApproval? {
      var p := ToldAsks(out.result, ShownContexts(out.events), script, resumed, context, autoApproved);
    }
  }

  /** The request a loop ends with comes after its quiet events. */
  lemma {:induction false} RequestComesLast(
    before: seq<Event>, quiet: seq<Event>, thread: nat, result: LoopResult, m: nat)
    requires AllQuiet(quiet)
    requires var trace := before + (quiet + FinalEvents(thread, result));
             |before| <= m < |trace| && trace[m].Request?
    ensures var trace := before + (quiet + FinalEvents(thread, result));
            result.NeedApproval? && trace[m].pending == result.pending && AlwaysTools(trace[..m]) == AlwaysTools(before)
  {
    var trace := before + (quiet + FinalEvents(thread, result));
    if m >= |before| + |quiet| {
      assert trace[m] == FinalEvents(thread, result)[m - |before| - |quiet|];
      assert m == |before| + |quiet|;
      assert trace[..m] == before + quiet;
      QuietChangesNothing(before, quiet, thread);
    }
  }

  /** The user is asked only for a call the model proposed just now, of a tool that requires approval, and
      not for a tool approved for good unless it is a destructive shell command. */
  ghost predicate RequestNeeded(trace: seq<Event>, m: nat, script: seq<Reply>)
    requires m < |trace| && trace[m].Request?
  {
    exists p ::
      && ProposedIn(script, p) && p.call == trace[m].pending.call
      && p.gated && (p.call.name !in AlwaysTools(trace[..m]) || (p.call.name == "shell" && p.destructive))
  }

  lemma {:induction false} TurnRequests(s: Session, i: Input, m: nat)
    requires Inv(s) && i.UserInput? && TurnStarts(s, i)
    requires |s.trace| <= m < |Step(s, i).trace| && Step(s, i).trace[m].Request?
    ensures RequestNeeded(Step(s, i).trace, m, i.script)
  {
    var out, note := UserInputLoop(s, i), [Status(i.thread, Thinking)];
    var kept := AutoCompacted(s.slots[i.thread].thread.turns, i.env);
    var context := PromptMessages(i.systemPrompt) + Asked(kept, i.content);
    TurnLoop(s, i);
    LoopEvents(i.thread, i.script, 0, false, context, s.autoApproved, {}, s.nextRequest);
    LoopAsks(i.thread, i.script, false, context, s.autoApproved, s.nextRequest);
    assert Step(s, i).trace == s.trace + ((note + out.events) + FinalEvents(i.thread, out.result));
    RequestComesLast(s.trace, note + out.events, i.thread, out.result, m);
  }

  lemma {:induction false} AnswerRequests(s: Session, i: Input, m: nat)
    requires Inv(s) && i.ApprovalAnswer? && AnswerMatches(s, i) && i.approved
    requires |s.trace| <= m < |Step(s, i).trace| && Step(s, i).trace[m].Request?
    ensures RequestNeeded(Step(s, i).trace, m, i.script)
  {
    var p, out := s.slots[i.thread].thread.pending.value, ResumedLoop(s, i);
    var answer, run := Answer(i.thread, i.requestId, true, i.always),
      Execution(i.thread, p.call, true, true, i.outcome);
    var context := p.context + [ResultMessage(p.call, i.outcome)];
    LoopEvents(i.thread, i.script, 0, true, context, AutoApprovedAfter(s, i), {}, s.nextRequest);
    LoopAsks(i.thread, i.script, true, context, AutoApprovedAfter(s, i), s.nextRequest);
    AnsweredAndRun(s, i);
    var before, back := s.trace + [answer] + run, FinalEvents(i.thread, out.result);
    AnswerTrace(s.trace, answer, run, out.events, back);
    assert Step(s, i).trace == before + (out.events + back);
    if m >= |before| {
      RequestComesLast(before, out.events, i.thread, out.result, m);
    }
  }

  lemma AnswerTrace(trace: seq<Event>, answer: Event, run: seq<Event>, events: seq<Event>, back: seq<Event>)
    ensures trace + ([answer] + run + events + back) == (trace + [answer] + run) + (events + back)
  {
  }

  /** In every run, every request raised is a needed one. */
  lemma {:induction false} NoNeedlessRequests(inputs: seq<Input>, i: Input, m: nat)
    requires var s := Run(NEW_SESSION, inputs);
             |s.trace| <= m < |Step(s, i).trace| && Step(s, i).trace[m].Request?
    ensures var s := Run(NEW_SESSION, inputs);
            && (i.UserInput? || i.ApprovalAnswer?)
            && RequestNeeded(Step(s, i).trace, m, i.script)
  {
    var s := Run(NEW_SESSION, inputs);
    RunKeepsInv(inputs);
    if i.UserInput? {
      TurnRequests(s, i, m);
    } else if i.ApprovalAnswer? && AnswerMatches(s, i) && i.approved {
      AnswerRequests(s, i, m);
    } else {
      QuietStepRequests(s, i, m);
    }
  }

  lemma {:induction false} QuietStepRequests(s: Session, i: Input, m: nat)
    requires !i.UserInput? && !(i.ApprovalAnswer? && AnswerMatches(s, i) && i.approved)
    requires |s.trace| <= m < |Step(s, i).trace|
    ensures !Step(s, i).trace[m].Request?
  {
  }

  // ---------- stopping, clearing, going back ----------

  /** An interrupt stops a thread that runs or waits and keeps its conversation; any other thread stays. */
  lemma {:induction false} InterruptAnswer(s: Session, id: nat)
    ensures var after := Step(s, InterruptTurn(id));
            && OthersUntouched(s, after, id) && after.autoApproved == s.autoApproved
            && if id in s.slots && (s.slots[id].thread.state == Processing
               || s.slots[id].thread.state == AwaitingApproval)
               then && id in after.slots && after.slots[id].thread.state == Interrupted
                    && Messages(after.slots[id].thread.turns) == Messages(s.slots[id].thread.turns)
                    && after.slots[id].history == s.slots[id].history
               else after.slots == s.slots
  {
    if id in s.slots && s.slots[id].thread.turns != [] {
      var turns := s.slots[id].thread.turns;
      var n := |turns| - 1;
      var stopped := LastTurnSet(turns, turns[n].(state := TurnInterrupted));
      assert stopped[..n] == turns[..n];
    }
  }

  /** Clearing leaves an empty, idle thread with nothing to undo or redo. */
  lemma {:induction false} ClearAnswer(s: Session, id: nat)
    requires id in s.slots
    ensures var after := Step(s, ClearThread(id));
            && OthersUntouched(s, after, id) && after.autoApproved == s.autoApproved
            && id in after.slots && after.slots[id].thread.state == Idle
            && Messages(after.slots[id].thread.turns) == []
            && Step(after, UndoTurn(id)) == after && Step(after, RedoTurn(id)) == after
  {
  }

  /** Resuming from a checkpoint gives back exactly its messages and drops it with everything newer. */
  lemma {:induction false} ResumeAnswer(s: Session, id: nat, k: nat)
    requires id in s.slots && k < |s.slots[id].history.undoStack|
    requires var stack := s.slots[id].history.undoStack;
             Printed(stack[k].messages) && forall j | 0 <= j < k :: stack[j].id != stack[k].id
    ensures var stack := s.slots[id].history.undoStack;
            var after := Step(s, ResumeFrom(id, stack[k].id));
            && OthersUntouched(s, after, id) && id in after.slots && after.slots[id].thread.state == Idle
            && Messages(after.slots[id].thread.turns) == stack[k].messages
            && after.slots[id].history.undoStack == stack[..k] && after.slots[id].history.redoStack == []
  {
  }

  /** A checkpoint that is not there: nothing happens. */
  lemma ResumeUnknown(s: Session, id: nat, checkpointId: nat)
    requires id in s.slots ==> forall c | c in s.slots[id].history.undoStack :: c.id != checkpointId
    ensures Step(s, ResumeFrom(id, checkpointId)) == s
  {
    if id in s.slots {
      var stack := s.slots[id].history.undoStack;
      assert forall j | 0 <= j < |stack| :: stack[j] in stack;
    }
  }

  function AtMost(n: nat, limit: nat): nat {
    if n <= limit then n else limit
  }

  /** From 80,000 tokens the context is moved to the workspace; above 85,000 summarized to five turns; above
      95,000 cut to three. */
  lemma SuggestsBySize(ms: seq<ChatMessage>)
    ensures SuggestCompaction(ms)
            == if Tokens(ms) < 80_000 then None
               else if Tokens(ms) <= 85_000 then Some(MoveToWorkspace)
               else if Tokens(ms) <= 95_000 then Some(Summarize(5)) else Some(Truncate(3))
  {
  }

  lemma {:induction false} StrategyKeeps(turns: seq<Turn>, strategy: Strategy, env: Surroundings)
    ensures |CompactedTurns(turns, strategy, env)|
            == match strategy
               case Summarize(k) => if env.summary.None? then |turns| else AtMost(|turns|, k)
               case Truncate(k) => AtMost(|turns|, k)
               case MoveToWorkspace => AtMost(|turns|, if env.hasWorkspace then 10 else 5)
  {
    RenumberedLength(turns, KeepCount(strategy, env));
  }

  /** How many turns are left when a turn starts: from 80,000 tokens the last ten with a workspace and five
      without; above 85,000 the last five, if a summary can be had; above 95,000 the last three. */
  lemma {:induction false} CompactionKeeps(turns: seq<Turn>, env: Surroundings)
    ensures var tokens, kept := Tokens(Messages(turns)), AutoCompacted(turns, env);
            |kept| == if tokens < 80_000 then |turns|
                      else if tokens <= 85_000 then AtMost(|turns|, if env.hasWorkspace then 10 else 5)
                      else if tokens <= 95_000 then (if env.summary.None? then |turns| else AtMost(|turns|, 5))
                      else AtMost(|turns|, 3)
  {
    var strategy := SuggestCompaction(Messages(turns));
    SuggestsBySize(Messages(turns));
    if strategy.Some? {
      StrategyKeeps(turns, strategy.value, env);
    }
  }

  /** The compact command does the same, and below 80,000 tokens summarizes down to five turns. */
  lemma {:induction false} CompactAnswer(s: Session, id: nat, env: Surroundings)
    requires id in s.slots
    ensures var turns, after := s.slots[id].thread.turns, Step(s, CompactThread(id, env));
            && OthersUntouched(s, after, id) && id in after.slots && after.trace == s.trace
            && after.slots[id].history == s.slots[id].history
            && after.slots[id].thread.state == s.slots[id].thread.state
            && |after.slots[id].thread.turns|
               == if Tokens(Messages(turns)) >= 80_000 then |AutoCompacted(turns, env)|
                  else if env.summary.None? then |turns| else AtMost(|turns|, 5)
  {
    var turns := s.slots[id].thread.turns;
    SuggestsBySize(Messages(turns));
    StrategyKeeps(turns, Summarize(5), env);
  }

  /** Redo gives back what the newest undo put away, and takes it off the stack. */
  lemma {:induction false} RedoAnswer(s: Session, id: nat)
    requires id in s.slots && s.slots[id].history.redoStack != []
    requires var stack := s.slots[id].history.redoStack; Printed(stack[|stack| - 1].messages)
    ensures var stack, after := s.slots[id].history.redoStack, Step(s, RedoTurn(id));
            && OthersUntouched(s, after, id) && id in after.slots && after.slots[id].thread.state == Idle
            && Messages(after.slots[id].thread.turns) == stack[|stack| - 1].messages
            && after.slots[id].history.redoStack == stack[..|stack| - 1]
            && after.slots[id].history.undoStack == s.slots[id].history.undoStack
  {
  }

  /** A thread opened on stored messages holds them, and has no past to go back to. */
  lemma {:induction false} OpenAnswer(s: Session, id: nat, ms: seq<ChatMessage>)
    requires id !in s.slots && Printed(ms)
    ensures var after := Step(s, OpenThread(id, ms));
            && OthersUntouched(s, after, id) && id in after.slots && after.slots[id].thread.state == Idle
            && Messages(after.slots[id].thread.turns) == ms && after.slots[id].thread.pending.None?
            && Step(after, UndoTurn(id)) == after && Step(after, RedoTurn(id)) == after
  {
  }
}
