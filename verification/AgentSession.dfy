/** The message handlers as they run, updating the session in place; each is proved to take exactly
    the step its specification describes. */
module AgentSession {
  import opened Wrappers
  import opened Chat
  import opened Conversation
  import opened Undo
  import opened Context
  import opened AgentLoop
  import opened Sessions

  datatype Submission = Reply(text: string) | Done | Refused | ApprovalRequested(requestId: nat, toolName: string)
    | Failed

  lemma {:induction false} UserInputIs(s: Session, i: Input, after: Session, out: LoopOut)
    requires i.UserInput? && TurnStarts(s, i) && out == UserInputLoop(s, i)
    requires var started := TurnStarted(s, i);
             after.slots == s.slots[i.thread := started.(thread := Finalized(started.thread, out.result))]
    requires after.trace == s.trace + ([Status(i.thread, Thinking)] + out.events + FinalEvents(i.thread, out.result))
    requires after.autoApproved == s.autoApproved
    requires after.nextRequest == s.nextRequest + 1 && after.nextCheckpoint == s.nextCheckpoint + 1
    ensures after == UserInputStep(s, i)
  {
  }

  class Agent {
    var autoApproved: set<string>
    var slots: map<nat, Slot>
    var nextRequest: nat
    var nextCheckpoint: nat
    ghost var trace: seq<Event>

    ghost function View(): Session
      reads this
    {
      Session(autoApproved, slots, nextRequest, nextCheckpoint, trace)
    }

    constructor ()
      ensures View() == NEW_SESSION
    {
      autoApproved, slots, nextRequest, nextCheckpoint, trace := {}, map[], 0, 0, [];
    }

    method SetThread(id: nat, t: Thread)
      requires id in slots
      modifies this`slots
      ensures View() == WithThread(old(View()), id, t)
    {
      slots := slots[id := slots[id].(thread := t)];
    }

    /** Store the outcome of a loop in its thread and say what the user is told. */
    method FinalizeLoopResult(id: nat, result: LoopResult) returns (r: Submission)
      requires id in slots
      modifies this`slots
      ensures View() == WithThread(old(View()), id, Finalized(old(slots)[id].thread, result))
      ensures r == match result
                   case Response(text) => Reply(text)
                   case NeedApproval(p) => ApprovalRequested(p.requestId, p.call.name)
                   case LoopError(_) => Failed
    {
      var t := slots[id].thread;
      match result
      case Response(text) =>
        if t.turns != [] {
          t := t.(turns := t.turns[|t.turns| - 1 := CompletedTurn(t.turns[|t.turns| - 1], text)]);
        }
        SetThread(id, t.(state := Idle));
        r := Reply(text);
      case NeedApproval(p) =>
        SetThread(id, t.(state := AwaitingApproval, pending := Some(p)));
        r := ApprovalRequested(p.requestId, p.call.name);
      case LoopError(e) =>
        if t.turns != [] {
          t := t.(turns := t.turns[|t.turns| - 1 := FailedTurn(t.turns[|t.turns| - 1], e)]);
        }
        SetThread(id, t.(state := Idle));
        r := Failed;
    }

    method WithPrompt(history: seq<ChatMessage>, prompt: Option<string>) returns (messages: seq<ChatMessage>)
      ensures messages == WithSystemPrompt(history, prompt)
    {
      messages := history;
      if prompt.Some? && forall m | m in messages :: m.role != System {
        messages := [SystemMessage(prompt.value)] + messages;
      }
    }

    /** Compact a thread that has grown too long. */
    method CompactIfNeeded(turns: seq<Turn>, env: Surroundings) returns (kept: seq<Turn>, messages: seq<ChatMessage>)
      ensures kept == AutoCompacted(turns, env) && messages == Messages(kept)
    {
      var conversation := new ConversationThread.Load(turns);
      messages := conversation.PrintMessages();
      var strategy := SuggestCompaction(messages);
      if strategy.Some? {
        var _ := Compact(conversation, strategy.value, env);
        messages := conversation.PrintMessages();
      }
      kept := conversation.turns;
    }

    method TakeCheckpoint(h: History, messages: seq<ChatMessage>, turnNumber: nat) returns (saved: History)
      modifies this`nextCheckpoint
      ensures saved == Checkpointed(h, Checkpoint(old(nextCheckpoint), turnNumber, messages))
      ensures nextCheckpoint == old(nextCheckpoint) + 1
    {
      var manager := new UndoManager.Load(h);
      manager.TakeCheckpoint(Checkpoint(nextCheckpoint, turnNumber, messages));
      nextCheckpoint := nextCheckpoint + 1;
      saved := manager.View();
    }

    /** Compact if needed, checkpoint, and open the turn. */
    method StartTurn(i: Input) returns (messages: seq<ChatMessage>)
      requires i.UserInput? && i.thread in slots
      modifies this`slots, this`nextCheckpoint
      ensures View() == Put(old(View()), i.thread, TurnStarted(old(View()), i)).(nextCheckpoint := old(nextCheckpoint)
              + 1)
      ensures messages == WithSystemPrompt(Messages(slots[i.thread].thread.turns), i.systemPrompt)
    {
      var Slot(t, h) := slots[i.thread];
      var turns, history := CompactIfNeeded(t.turns, i.env);
      h := TakeCheckpoint(h, history, |turns| + 1);
      turns := turns + [NewTurn(|turns|, i.content)];
      slots := slots[i.thread := Slot(Thread(Processing, turns, t.pending), h)];
      var conversation := new ConversationThread.Load(turns);
      messages := conversation.PrintMessages();
      messages := WithPrompt(messages, i.systemPrompt);
    }

    method ProcessUserInput(i: Input) returns (r: Submission)
      requires i.UserInput?
      modifies this
      ensures View() == UserInputStep(old(View()), i)
      ensures r.Refused? <==> !TurnStarts(old(View()), i)
    {
      if i.thread !in slots {
        return Refused;
      }
      match slots[i.thread].thread.state {
        case Processing => return Refused;
        case AwaitingApproval => return Refused;
        case Completed => return Refused;
        case Idle =>
        case Interrupted =>
      }
      if !i.accepted {
        return Refused;
      }
      var messages := StartTurn(i);
      var result;
      ghost var events;
      result, events := RunAgenticLoop(i.thread, i.script, false, messages, autoApproved, {}, nextRequest);
      nextRequest := nextRequest + 1;
      r := FinalizeLoopResult(i.thread, result);
      trace := trace + ([Status(i.thread, Thinking)] + events + FinalEvents(i.thread, result));
      UserInputIs(old(View()), i, View(), LoopOut(result, events));
    }

    /** Run the approved call, whose request has been taken from the thread, and resume the loop. */
    method ExecuteApproved(i: Input, p: PendingApproval) returns (r: Submission, ghost out: LoopOut)
      requires i.ApprovalAnswer? && i.thread in slots
      modifies this`slots, this`autoApproved, this`nextRequest
      ensures autoApproved == old(autoApproved) + (if i.always then {p.call.name} else {})
      ensures out == RunLoop(i.thread, i.script, 0, true, p.context + [ResultMessage(p.call, i.outcome)],
                             autoApproved, {}, old(nextRequest))
      ensures var t := old(slots)[i.thread].thread.(state := Processing);
              slots == old(slots)[i.thread := old(slots)[i.thread].(thread := Finalized(t, out.result))]
      ensures nextRequest == old(nextRequest) + 1
      ensures !r.Refused?
    {
      if i.always {
        autoApproved := autoApproved + {p.call.name};
      }
      SetThread(i.thread, slots[i.thread].thread.(state := Processing));
      var messages := p.context + [ResultMessage(p.call, i.outcome)];
      var result;
      ghost var events;
      result, events := RunAgenticLoop(i.thread, i.script, true, messages, autoApproved, {}, nextRequest);
      out := LoopOut(result, events);
      nextRequest := nextRequest + 1;
      r := FinalizeLoopResult(i.thread, result);
    }

    method ProcessApproval(i: Input) returns (r: Submission)
      requires i.ApprovalAnswer?
      modifies this
      ensures View() == ApprovalStep(old(View()), i)
      ensures r.Refused? <==> !AnswerMatches(old(View()), i)
    {
      ghost var answer := [Answer(i.thread, i.requestId, i.approved, i.always)];
      if i.thread !in slots || slots[i.thread].thread.state != AwaitingApproval
        || slots[i.thread].thread.pending.None? {
        trace := trace + answer;
        return Refused;
      }
      var p := slots[i.thread].thread.pending.value;
      SetThread(i.thread, slots[i.thread].thread.(pending := None));
      if i.requestId.Some? && i.requestId.value != p.requestId {
        SetThread(i.thread, slots[i.thread].thread.(state := AwaitingApproval, pending := Some(p)));
        trace := trace + answer;
        assert slots == old(slots);
        return Refused;
      }
      if !i.approved {
        SetThread(i.thread, slots[i.thread].thread.(state := Idle, pending := None));
        trace := trace + (answer + [Status(i.thread, Note)]);
        assert slots == ApprovalStep(old(View()), i).slots;
        return Done;
      }
      ghost var out;
      r, out := ExecuteApproved(i, p);
      trace := trace + (answer + Execution(i.thread, p.call, true, true, i.outcome) + out.events
        + FinalEvents(i.thread, out.result));
      assert slots == ApprovalStep(old(View()), i).slots;
    }

    method ProcessInterrupt(id: nat)
      modifies this`slots, this`trace
      ensures View() == InterruptStep(old(View()), id)
    {
      trace := trace + [Interrupt(id)];
      if id in slots && (slots[id].thread.state == Processing || slots[id].thread.state == AwaitingApproval) {
        var t := slots[id].thread;
        if t.turns != [] {
          t := t.(turns := t.turns[|t.turns| - 1 := t.turns[|t.turns| - 1].(state := TurnInterrupted)]);
        }
        SetThread(id, t.(state := Interrupted));
      }
    }

    method ProcessClear(id: nat)
      modifies this`slots, this`trace
      ensures View() == ClearStep(old(View()), id)
    {
      trace := trace + [Clear(id)];
      if id in slots {
        var Slot(t, h) := slots[id];
        slots := slots[id := Slot(t.(turns := [], state := Idle), History([], [], h.maxCheckpoints))];
      }
    }

    /** Put a checkpoint's messages back into a thread. */
    method RestoreThread(id: nat, messages: seq<ChatMessage>, h: History)
      requires id in slots
      modifies this`slots, this`trace
      ensures View() == WithTimeline(old(View()), id, Timeline(Rebuilt(messages, 0), h, nextCheckpoint))
    {
      var conversation := new ConversationThread();
      conversation.RestoreFromMessages(messages);
      slots := slots[id := Slot(slots[id].thread.(turns := conversation.turns, state := Idle), h)];
      trace := trace + [Restore(id)];
    }

    method ProcessUndo(id: nat) returns (r: Submission)
      modifies this`slots, this`nextCheckpoint, this`trace
      ensures View() == UndoSession(old(View()), id)
    {
      if id !in slots {
        return Failed;
      }
      var Slot(t, h) := slots[id];
      if h.undoStack == [] {
        return Done;
      }
      var manager := new UndoManager.Load(h);
      var conversation := new ConversationThread.Load(t.turns);
      var messages := conversation.PrintMessages();
      var target := manager.Undo(Checkpoint(nextCheckpoint, |t.turns| + 1, messages));
      nextCheckpoint := nextCheckpoint + 1;
      RestoreThread(id, target.value.messages, manager.View());
      r := Done;
    }

    method ProcessRedo(id: nat) returns (r: Submission)
      modifies this`slots, this`trace
      ensures View() == RedoSession(old(View()), id)
    {
      if id !in slots {
        return Failed;
      }
      var manager := new UndoManager.Load(slots[id].history);
      var target := manager.Redo();
      if target.None? {
        return Done;
      }
      RestoreThread(id, target.value.messages, manager.View());
      r := Done;
    }

    method ProcessResume(id: nat, checkpointId: nat) returns (r: Submission)
      modifies this`slots, this`trace
      ensures View() == ResumeSession(old(View()), id, checkpointId)
    {
      if id !in slots {
        return Failed;
      }
      var manager := new UndoManager.Load(slots[id].history);
      var target := manager.Restore(checkpointId);
      if target.None? {
        return Failed;
      }
      RestoreThread(id, target.value.messages, manager.View());
      r := Done;
    }

    method ProcessCompact(id: nat, env: Surroundings) returns (r: CompactionResult)
      modifies this`slots
      ensures View() == CompactStep(old(View()), id, env)
      ensures id in old(slots) && r.Compacted? ==>
                r.turnsRemoved == |old(slots)[id].thread.turns| - |slots[id].thread.turns|
                  && r.tokensAfter <= r.tokensBefore
    {
      if id !in slots {
        return CompactionFailed;
      }
      var t := slots[id].thread;
      var conversation := new ConversationThread.Load(t.turns);
      var messages := conversation.PrintMessages();
      var suggested := SuggestCompaction(messages);
      var strategy := if suggested.Some? then suggested.value else Summarize(5);
      r := Compact(conversation, strategy, env);
      SetThread(id, t.(turns := conversation.turns));
    }

    method OpenNewThread(id: nat, messages: seq<ChatMessage>)
      modifies this`slots
      ensures View() == OpenStep(old(View()), id, messages)
    {
      if id !in slots {
        var conversation := new ConversationThread();
        conversation.RestoreFromMessages(messages);
        slots := slots[id := Slot(Thread(Idle, conversation.turns, None), EMPTY_HISTORY)];
      }
    }
  }
}
