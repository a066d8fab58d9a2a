/** A session of conversation threads and the handlers that move it, one message at a time
    (src/agent/session.rs, src/agent/agent_loop.rs, src/agent/approval.rs, src/agent/commands.rs). */
module Sessions {
  import opened Wrappers
  import opened Chat
  import opened Conversation
  import opened Undo
  import opened Context
  import opened AgentLoop

  datatype ThreadState = Idle | Processing | AwaitingApproval | Completed | Interrupted

  datatype Thread = Thread(state: ThreadState, turns: seq<Turn>, pending: Option<PendingApproval>)

  /** A thread with its undo manager. */
  datatype Slot = Slot(thread: Thread, history: History)

  /** `trace` is the observable past; `nextRequest` and `nextCheckpoint` supply fresh ids. */
  datatype Session = Session(
    autoApproved: set<string>, slots: map<nat, Slot>, nextRequest: nat, nextCheckpoint: nat, trace: seq<Event>)

  const NEW_SESSION: Session := Session({}, map[], 0, 0, [])

  /** One incoming message, with everything the outside world will answer while it is handled. */
  datatype Input =
    | UserInput(thread: nat, content: string, accepted: bool, env: Surroundings, systemPrompt: Option<string>,
      script: seq<Reply>)
    | ApprovalAnswer(thread: nat, requestId: Option<nat>, approved: bool, always: bool, outcome: Outcome,
      script: seq<Reply>)
    | InterruptTurn(thread: nat)
    | ClearThread(thread: nat)
    | UndoTurn(thread: nat)
    | RedoTurn(thread: nat)
    | ResumeFrom(thread: nat, checkpointId: nat)
    | CompactThread(thread: nat, env: Surroundings)
    | OpenThread(thread: nat, messages: seq<ChatMessage>)

  function Log(s: Session, events: seq<Event>): Session {
    s.(trace := s.trace + events)
  }

  function Put(s: Session, thread: nat, slot: Slot): Session {
    s.(slots := s.slots[thread := slot])
  }

  function WithThread(s: Session, id: nat, t: Thread): Session
    requires id in s.slots
  {
    Put(s, id, s.slots[id].(thread := t))
  }

  // ---------- thread transitions ----------

  function LastTurnSet(turns: seq<Turn>, t: Turn): seq<Turn>
    requires turns != []
  {
    turns[|turns| - 1 := t]
  }

  /** `finalize_loop_result`: complete the turn, wait for approval, or fail the turn. */
  function Finalized(t: Thread, result: LoopResult): Thread {
    match result
    case Response(text) =>
      t.(state := Idle, turns := if t.turns == [] then [] else LastTurnSet(t.turns,
        CompletedTurn(t.turns[|t.turns| - 1], text)))
    case NeedApproval(p) => t.(state := AwaitingApproval, pending := Some(p))
    case LoopError(e) =>
      t.(state := Idle, turns := if t.turns == [] then [] else LastTurnSet(t.turns,
        FailedTurn(t.turns[|t.turns| - 1], e)))
  }

  function FinalEvents(thread: nat, result: LoopResult): seq<Event> {
    match result
    case Response(_) => [Status(thread, Note)]
    case NeedApproval(p) =>
      [Request(thread, p), Status(thread, Note), Status(thread, ApprovalNeeded(p.requestId, p.call.name))]
    case LoopError(_) => []
  }

  function InterruptedThread(t: Thread): Thread {
    t.(state := Interrupted,
       turns := if t.turns == [] then [] else LastTurnSet(t.turns, t.turns[|t.turns| - 1].(state := TurnInterrupted)))
  }

  // ---------- handlers ----------

  function AutoCompacted(turns: seq<Turn>, env: Surroundings): seq<Turn> {
    var strategy := SuggestCompaction(Messages(turns));
    if strategy.None? then turns else CompactedTurns(turns, strategy.value, env)
  }

  function WithSystemPrompt(ms: seq<ChatMessage>, prompt: Option<string>): seq<ChatMessage> {
    if prompt.Some? && forall m | m in ms :: m.role != System then [SystemMessage(prompt.value)] + ms else ms
  }

  /** A new turn is refused while one runs or waits, in a completed thread, and for rejected input. */
  predicate TurnStarts(s: Session, i: Input)
    requires i.UserInput?
  {
    i.thread in s.slots && i.accepted && (s.slots[i.thread].thread.state in {Idle, Interrupted})
  }

  /** The thread and history just before the loop runs: compacted, checkpointed, turn started. */
  function TurnStarted(s: Session, i: Input): Slot
    requires i.UserInput? && i.thread in s.slots
  {
    var Slot(t, h) := s.slots[i.thread];
    var turns := AutoCompacted(t.turns, i.env);
    Slot(Thread(Processing, turns + [NewTurn(|turns|, i.content)], t.pending),
         Checkpointed(h, Checkpoint(s.nextCheckpoint, |turns| + 1, Messages(turns))))
  }

  function UserInputLoop(s: Session, i: Input): LoopOut
    requires i.UserInput? && i.thread in s.slots
  {
    RunLoop(i.thread, i.script, 0, false, WithSystemPrompt(Messages(TurnStarted(s, i).thread.turns), i.systemPrompt),
            s.autoApproved, {}, s.nextRequest)
  }

  function UserInputStep(s: Session, i: Input): Session
    requires i.UserInput?
  {
    if !TurnStarts(s, i) then s
    else
      var started := TurnStarted(s, i);
      var out := UserInputLoop(s, i);
      Log(Put(s, i.thread, started.(thread := Finalized(started.thread, out.result))),
          [Status(i.thread, Thinking)] + out.events + FinalEvents(i.thread, out.result))
      .(nextRequest := s.nextRequest + 1, nextCheckpoint := s.nextCheckpoint + 1)
  }

  /** The request an answer is matched against: the thread waits, holds one, and any id given is its id. */
  predicate AnswerMatches(s: Session, i: Input)
    requires i.ApprovalAnswer?
  {
    && i.thread in s.slots
    && s.slots[i.thread].thread.state == AwaitingApproval
    && s.slots[i.thread].thread.pending.Some?
    && (i.requestId.None? || i.requestId.value == s.slots[i.thread].thread.pending.value.requestId)
  }

  function AutoApprovedAfter(s: Session, i: Input): set<string>
    requires i.ApprovalAnswer? && AnswerMatches(s, i)
  {
    s.autoApproved + (if i.always then {s.slots[i.thread].thread.pending.value.call.name} else {})
  }

  /** The loop resumed with the approved call's result appended to the saved context. */
  function ResumedLoop(s: Session, i: Input): LoopOut
    requires i.ApprovalAnswer? && AnswerMatches(s, i)
  {
    var p := s.slots[i.thread].thread.pending.value;
    RunLoop(i.thread, i.script, 0, true, p.context + [ResultMessage(p.call, i.outcome)],
            AutoApprovedAfter(s, i), {}, s.nextRequest)
  }

  function ApprovalStep(s: Session, i: Input): Session
    requires i.ApprovalAnswer?
  {
    var answer := [Answer(i.thread, i.requestId, i.approved, i.always)];
    if !AnswerMatches(s, i) then Log(s, answer)
    else
      var t := s.slots[i.thread].thread;
      if !i.approved then
        Log(WithThread(s, i.thread, t.(state := Idle, pending := None)), answer + [Status(i.thread, Note)])
      else
        var p := t.pending.value;
        var out := ResumedLoop(s, i);
        Log(WithThread(s, i.thread, Finalized(t.(state := Processing, pending := None), out.result)),
            answer + Execution(i.thread, p.call, true, true, i.outcome) + out.events
              + FinalEvents(i.thread, out.result))
        .(autoApproved := AutoApprovedAfter(s, i), nextRequest := s.nextRequest + 1)
  }

  function InterruptStep(s: Session, id: nat): Session {
    var logged := Log(s, [Interrupt(id)]);
    if id in s.slots && s.slots[id].thread.state in {Processing, AwaitingApproval} then
      WithThread(logged, id, InterruptedThread(s.slots[id].thread))
    else logged
  }

  function ClearStep(s: Session, id: nat): Session {
    var logged := Log(s, [Clear(id)]);
    if id !in s.slots then logged
    else
      var Slot(t, h) := s.slots[id];
      Put(logged, id, Slot(t.(state := Idle, turns := []), History([], [], h.maxCheckpoints)))
  }

  function TimelineOf(s: Session, id: nat): Timeline
    requires id in s.slots
  {
    Timeline(s.slots[id].thread.turns, s.slots[id].history, s.nextCheckpoint)
  }

  /** Undo, redo and resume rebuild the turns and go idle; a stored request stays in place, unreachable. */
  function WithTimeline(s: Session, id: nat, t: Timeline): Session
    requires id in s.slots
  {
    Log(Put(s, id, Slot(s.slots[id].thread.(state := Idle, turns := t.turns), t.history)), [Restore(id)])
    .(nextCheckpoint := t.nextId)
  }

  function UndoSession(s: Session, id: nat): Session {
    if id !in s.slots || s.slots[id].history.undoStack == [] then s
    else WithTimeline(s, id, UndoStep(TimelineOf(s, id)))
  }

  function RedoSession(s: Session, id: nat): Session {
    if id !in s.slots || s.slots[id].history.redoStack == [] then s
    else WithTimeline(s, id, RedoStep(TimelineOf(s, id)))
  }

  function ResumeSession(s: Session, id: nat, checkpointId: nat): Session {
    if id !in s.slots then s
    else
      var h := s.slots[id].history;
      var p := Position(h.undoStack, checkpointId, 0);
      if p.None? then s
      else WithTimeline(s, id, Timeline(Rebuilt(h.undoStack[p.value].messages, 0), RestoredTo(h, checkpointId),
        s.nextCheckpoint))
  }

  function CompactStep(s: Session, id: nat, env: Surroundings): Session {
    if id !in s.slots then s
    else
      var t := s.slots[id].thread;
      var suggested := SuggestCompaction(Messages(t.turns));
      var strategy := if suggested.Some? then suggested.value else Summarize(5);
      WithThread(s, id, t.(turns := CompactedTurns(t.turns, strategy, env)))
  }

  /** A new thread, or one hydrated from stored messages. */
  function OpenStep(s: Session, id: nat, ms: seq<ChatMessage>): Session {
    if id in s.slots then s else Put(s, id, Slot(Thread(Idle, Rebuilt(ms, 0), None), EMPTY_HISTORY))
  }

  function Step(s: Session, i: Input): Session {
    match i
    case UserInput(_, _, _, _, _, _) => UserInputStep(s, i)
    case ApprovalAnswer(_, _, _, _, _, _) => ApprovalStep(s, i)
    case InterruptTurn(id) => InterruptStep(s, id)
    case ClearThread(id) => ClearStep(s, id)
    case UndoTurn(id) => UndoSession(s, id)
    case RedoTurn(id) => RedoSession(s, id)
    case ResumeFrom(id, c) => ResumeSession(s, id, c)
    case CompactThread(id, env) => CompactStep(s, id, env)
    case OpenThread(id, ms) => OpenStep(s, id, ms)
  }

  function Run(s: Session, inputs: seq<Input>): Session {
    if inputs == [] then s else Step(Run(s, inputs[..|inputs| - 1]), inputs[|inputs| - 1])
  }
}
