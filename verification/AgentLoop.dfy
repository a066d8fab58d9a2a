/** The model -> tool -> repeat loop (src/agent/tool_executor.rs). The model and the tools are inputs:
    a script of replies, each proposed call carrying the result its tool would give. */
module AgentLoop {
  import opened Wrappers
  import opened Sequences
  import opened Chat

  const MAX_TOOL_ITERATIONS: nat := 10
  const NUDGE_TEXT: string := "Please proceed and use the available tools to complete this task."

  datatype Outcome = Succeeded(output: string) | FailedWith(error: string)

  /** One proposed call: `gated` says its tool is registered and requires approval, `destructive` is the
      shell tool's own demand for an explicit approval, `outcome` is what executing it would return. */
  datatype Proposal = Proposal(call: ToolCall, gated: bool, destructive: bool, outcome: Outcome)

  datatype Reply =
    | ModelFailed
    | ModelText(text: string, toolsAvailable: bool)
    | ModelCalls(content: Option<string>, proposals: seq<Proposal>)

  /** A paused call together with the context to resume from. */
  datatype PendingApproval = PendingApproval(requestId: nat, call: ToolCall, context: seq<ChatMessage>)

  datatype StatusUpdate =
    | Thinking
    | ToolStarted(name: string)
    | ToolCompleted(name: string, success: bool)
    | ToolResult(name: string, preview: string)
    | ApprovalNeeded(requestId: nat, toolName: string)
    | Note

  /** Everything observable about a session, in order. The first four are what the user did. */
  datatype Event =
    | Answer(thread: nat, requestId: Option<nat>, approved: bool, always: bool)
    | Interrupt(thread: nat)
    | Clear(thread: nat)
    | Restore(thread: nat)
    | Request(thread: nat, pending: PendingApproval)
    | ModelCall(thread: nat, context: seq<ChatMessage>)
    | Nudge(thread: nat)
    | Status(thread: nat, status: StatusUpdate)
    | Execute(thread: nat, call: ToolCall, gated: bool, explicitOnly: bool, outcome: Outcome)

  datatype LoopResult = Response(text: string) | NeedApproval(pending: PendingApproval) | LoopError(error: string)

  datatype LoopOut = LoopOut(result: LoopResult, events: seq<Event>)
  datatype BatchOut = BatchOut(context: seq<ChatMessage>, paused: Option<PendingApproval>, events: seq<Event>)

  /** A gated call runs unasked only for an auto-approved tool, and never for a destructive shell command. */
  predicate MayRun(p: Proposal, autoApproved: set<string>) {
    !p.gated || (p.call.name in autoApproved && !ExplicitOnly(p))
  }

  predicate ExplicitOnly(p: Proposal) {
    p.call.name == "shell" && p.destructive
  }

  function ResultMessage(call: ToolCall, outcome: Outcome): ChatMessage {
    ToolResultMessage(call.id, call.name, match outcome case Succeeded(o) => o case FailedWith(e) => "Error: " + e)
  }

  function Execution(thread: nat, call: ToolCall, gated: bool, explicitOnly: bool, outcome: Outcome): seq<Event> {
    [Status(thread, ToolStarted(call.name)), Execute(thread, call, gated, explicitOnly, outcome),
     Status(thread, ToolCompleted(call.name, outcome.Succeeded?))]
    + (if outcome.Succeeded? && outcome.output != "" then [Status(thread, ToolResult(call.name, outcome.output))]
      else [])
  }

  function Ran(thread: nat, p: Proposal): seq<Event> {
    Execution(thread, p.call, p.gated, ExplicitOnly(p), p.outcome)
  }

  function Calls(ps: seq<Proposal>): (r: seq<ToolCall>)
    ensures |r| == |ps| && forall i | 0 <= i < |ps| :: r[i] == ps[i].call
  {
    seq(|ps|, i requires 0 <= i < |ps| => ps[i].call)
  }

  function RunBatch(
    thread: nat, ps: seq<Proposal>, autoApproved: set<string>, context: seq<ChatMessage>, requestId: nat): BatchOut
  {
    if ps == [] then BatchOut(context, None, [])
    else if !MayRun(ps[0], autoApproved) then
      BatchOut(context, Some(PendingApproval(requestId, ps[0].call, context)), [])
    else
      var rest := RunBatch(thread, ps[1..], autoApproved, context + [ResultMessage(ps[0].call, ps[0].outcome)],
        requestId);
      rest.(events := Ran(thread, ps[0]) + rest.events)
  }

  /** The reply to the i-th model call of a run; past the script's end the model fails. */
  function ReplyAt(script: seq<Reply>, i: nat): Reply {
    if i < |script| then script[i] else ModelFailed
  }

  /** One iteration either stops the loop or goes on with a longer context. */
  datatype StepOut =
    | Stop(result: LoopResult, events: seq<Event>)
    | Continue(toolsExecuted: bool, context: seq<ChatMessage>, events: seq<Event>)

  function Iterate(
    thread: nat, reply: Reply, done: nat, toolsExecuted: bool, context: seq<ChatMessage>,
    autoApproved: set<string>, requestId: nat): StepOut
  {
    match reply
    case ModelFailed =>
      Stop(LoopError("LLM error"), [ModelCall(thread, context), Status(thread, Thinking)])
    case ModelText(text, toolsAvailable) =>
      if !toolsExecuted && done + 1 < 3 && toolsAvailable then
        Continue(false, context + [AssistantMessage(text), UserMessage(NUDGE_TEXT)],
                 [ModelCall(thread, context), Nudge(thread)])
      else Stop(Response(text), [ModelCall(thread, context)])
    case ModelCalls(content, ps) =>
      var batch := RunBatch(thread, ps, autoApproved, context + [AssistantWithToolCalls(content, Calls(ps))],
        requestId);
      var events := [ModelCall(thread, context), Status(thread, Thinking)] + batch.events;
      if batch.paused.Some? then Stop(NeedApproval(batch.paused.value), events)
      else Continue(true, batch.context, events)
  }

  /** The loop from its `done`-th iteration on; `interrupted` says which iterations find the thread interrupted. */
  function RunLoop(
    thread: nat, script: seq<Reply>, done: nat, toolsExecuted: bool, context: seq<ChatMessage>,
    autoApproved: set<string>, interrupted: set<nat>, requestId: nat): LoopOut
    decreases MAX_TOOL_ITERATIONS - done
  {
    if done >= MAX_TOOL_ITERATIONS then LoopOut(LoopError("Exceeded maximum tool iterations"), [])
    else if done in interrupted then LoopOut(LoopError("Interrupted"), [])
    else
      match Iterate(thread, ReplyAt(script, done), done, toolsExecuted, context, autoApproved, requestId)
      case Stop(result, events) => LoopOut(result, events)
      case Continue(executed, next, events) =>
        var rest := RunLoop(thread, script, done + 1, executed, next, autoApproved, interrupted, requestId);
        rest.(events := events + rest.events)
  }

  // ---------- bounds ----------

  function ModelCallCount(events: seq<Event>): nat {
    if events == [] then 0
    else ModelCallCount(events[..|events| - 1]) + (if events[|events| - 1].ModelCall? then 1 else 0)
  }

  function NudgeCount(events: seq<Event>): nat {
    if events == [] then 0
    else NudgeCount(events[..|events| - 1]) + (if events[|events| - 1].Nudge? then 1 else 0)
  }

  lemma {:induction false} CountsConcat(a: seq<Event>, b: seq<Event>)
    ensures ModelCallCount(a + b) == ModelCallCount(a) + ModelCallCount(b)
    ensures NudgeCount(a + b) == NudgeCount(a) + NudgeCount(b)
  {
    if b == [] {
      assert a + b == a;
    } else {
      assert (a + b)[..|a + b| - 1] == a + b[..|b| - 1];
      CountsConcat(a, b[..|b| - 1]);
    }
  }

  lemma {:induction false} BatchCounts(
    thread: nat, ps: seq<Proposal>, auto: set<string>, context: seq<ChatMessage>, rid: nat)
    ensures var out := RunBatch(thread, ps, auto, context, rid);
            ModelCallCount(out.events) == 0 && NudgeCount(out.events) == 0
  {
    if ps != [] && MayRun(ps[0], auto) {
      var next := context + [ResultMessage(ps[0].call, ps[0].outcome)];
      BatchCounts(thread, ps[1..], auto, next, rid);
      NoModelEvents(Ran(thread, ps[0]));
      CountsConcat(Ran(thread, ps[0]), RunBatch(thread, ps[1..], auto, next, rid).events);
    }
  }

  lemma {:induction false} NoModelEvents(events: seq<Event>)
    requires forall i | 0 <= i < |events| :: !events[i].ModelCall? && !events[i].Nudge?
    ensures ModelCallCount(events) == 0 && NudgeCount(events) == 0
  {
    if events != [] {
      NoModelEvents(events[..|events| - 1]);
    }
  }

  lemma CountPrefix(e: Event, f: Event, rest: seq<Event>)
    requires e.ModelCall? && !f.ModelCall?
    ensures ModelCallCount([e, f] + rest) == 1 + ModelCallCount(rest)
    ensures NudgeCount([e, f] + rest) == (if f.Nudge? then 1 else 0) + NudgeCount(rest)
  {
    CountsConcat([e, f], rest);
    CountsConcat([e], [f]);
    assert [e] + [f] == [e, f];
    assert [e][..0] == [] && [f][..0] == [];
  }

  lemma IterationCounts(
    thread: nat, reply: Reply, done: nat, toolsExecuted: bool, context: seq<ChatMessage>, auto: set<string>, rid: nat)
    ensures var out := Iterate(thread, reply, done, toolsExecuted, context, auto, rid);
            && ModelCallCount(out.events) == 1
            && (NudgeCount(out.events) == if out.Continue? && !out.toolsExecuted then 1 else 0)
            && (out.Continue? && !out.toolsExecuted ==> !toolsExecuted && done < 2)
  {
    var call, think := ModelCall(thread, context), Status(thread, Thinking);
    match reply
    case ModelFailed =>
      CountPrefix(call, think, []);
      assert [call, think] + [] == [call, think];
    case ModelText(text, toolsAvailable) =>
      CountPrefix(call, Nudge(thread), []);
      assert [call, Nudge(thread)] + [] == [call, Nudge(thread)];
      assert [call][..0] == [];
    case ModelCalls(content, ps) =>
      var asked := context + [AssistantWithToolCalls(content, Calls(ps))];
      BatchCounts(thread, ps, auto, asked, rid);
      CountPrefix(call, think, RunBatch(thread, ps, auto, asked, rid).events);
  }

  /** A loop makes at most ten model calls and at most two nudges; a resumed loop never nudges. */
  lemma {:induction false} LoopBounds(
    thread: nat, script: seq<Reply>, done: nat, toolsExecuted: bool, context: seq<ChatMessage>,
    auto: set<string>, interrupted: set<nat>, rid: nat)
    ensures var out := RunLoop(thread, script, done, toolsExecuted, context, auto, interrupted, rid);
            && (done <= 10 ==> ModelCallCount(out.events) <= 10 - done)
            && (NudgeCount(out.events) <= if toolsExecuted || done >= 2 then 0 else 2 - done)
    decreases MAX_TOOL_ITERATIONS - done
  {
    if done < MAX_TOOL_ITERATIONS && done !in interrupted {
      IterationCounts(thread, ReplyAt(script, done), done, toolsExecuted, context, auto, rid);
      var step := Iterate(thread, ReplyAt(script, done), done, toolsExecuted, context, auto, rid);
      if step.Continue? {
        var rest := RunLoop(thread, script, done + 1, step.toolsExecuted, step.context, auto, interrupted, rid);
        LoopBounds(thread, script, done + 1, step.toolsExecuted, step.context, auto, interrupted, rid);
        CountsConcat(step.events, rest.events);
        assert RunLoop(thread, script, done, toolsExecuted, context, auto, interrupted, rid).events
               == step.events + rest.events;
      }
    }
  }

  // ---------- the loop as it is run ----------

  method ExecuteBatch(
    thread: nat, ps: seq<Proposal>, autoApproved: set<string>, context: seq<ChatMessage>, requestId: nat)
    returns (messages: seq<ChatMessage>, paused: Option<PendingApproval>, ghost events: seq<Event>)
    ensures var out := RunBatch(thread, ps, autoApproved, context, requestId);
            messages == out.context && paused == out.paused
    ensures events == RunBatch(thread, ps, autoApproved, context, requestId).events
  {
    messages, events := context, [];
    for i := 0 to |ps|
      invariant var rest := RunBatch(thread, ps[i..], autoApproved, messages, requestId);
                RunBatch(thread, ps, autoApproved, context, requestId) == rest.(events := events + rest.events)
    {
      var p := ps[i];
      assert ps[i..][0] == p && ps[i..][1..] == ps[i + 1..];
      if p.gated {
        var isAutoApproved := p.call.name in autoApproved;
        if isAutoApproved && p.call.name == "shell" && p.destructive {
          isAutoApproved := false;
        }
        if !isAutoApproved {
          paused := Some(PendingApproval(requestId, p.call, messages));
          return;
        }
      }
      ghost var step := Ran(thread, p);
      messages := messages + [ResultMessage(p.call, p.outcome)];
      ghost var rest := RunBatch(thread, ps[i + 1..], autoApproved, messages, requestId);
      assert events + (step + rest.events) == (events + step) + rest.events;
      events := events + step;
    }
    paused := None;
  }

  method OneIteration(
    thread: nat, reply: Reply, iteration: nat, toolsExecuted: bool, context: seq<ChatMessage>,
    autoApproved: set<string>, requestId: nat)
    returns (stop: Option<LoopResult>, executed: bool, messages: seq<ChatMessage>, ghost events: seq<Event>)
    requires iteration > 0
    ensures var out := Iterate(thread, reply, iteration - 1, toolsExecuted, context, autoApproved, requestId);
            && stop == (if out.Stop? then Some(out.result) else None)
            && (out.Continue? ==> messages == out.context && executed == out.toolsExecuted)
    ensures events == Iterate(thread, reply, iteration - 1, toolsExecuted, context, autoApproved, requestId).events
  {
    messages, executed, events, stop := context, toolsExecuted, [ModelCall(thread, context)], None;
    match reply
    case ModelFailed =>
      events := events + [Status(thread, Thinking)];
      stop := Some(LoopError("LLM error"));
    case ModelText(text, toolsAvailable) =>
      if !executed && iteration < 3 && toolsAvailable {
        messages := messages + [AssistantMessage(text)];
        messages := messages + [UserMessage(NUDGE_TEXT)];
        assert messages == context + [AssistantMessage(text), UserMessage(NUDGE_TEXT)];
        events := events + [Nudge(thread)];
      } else {
        stop := Some(Response(text));
      }
    case ModelCalls(content, ps) =>
      executed := true;
      messages := messages + [AssistantWithToolCalls(content, Calls(ps))];
      var paused;
      ghost var batchEvents;
      messages, paused, batchEvents := ExecuteBatch(thread, ps, autoApproved, messages, requestId);
      events := [ModelCall(thread, context), Status(thread, Thinking)] + batchEvents;
      if paused.Some? {
        stop := Some(NeedApproval(paused.value));
      }
  }

  method RunAgenticLoop(
    thread: nat, script: seq<Reply>, resumeAfterTool: bool, initial: seq<ChatMessage>,
    autoApproved: set<string>, interrupted: set<nat>, requestId: nat)
    returns (result: LoopResult, ghost events: seq<Event>)
    ensures result == RunLoop(thread, script, 0, resumeAfterTool, initial, autoApproved, interrupted, requestId).result
    ensures events == RunLoop(thread, script, 0, resumeAfterTool, initial, autoApproved, interrupted, requestId).events
  {
    var messages, iteration, toolsExecuted := initial, 0, resumeAfterTool;
    events := [];
    while true
      invariant iteration <= MAX_TOOL_ITERATIONS
      invariant var rest := RunLoop(thread, script, iteration, toolsExecuted, messages, autoApproved, interrupted,
                requestId);
                RunLoop(thread, script, 0, resumeAfterTool, initial, autoApproved, interrupted, requestId)
                == rest.(events := events + rest.events)
      decreases MAX_TOOL_ITERATIONS - iteration
    {
      iteration := iteration + 1;
      if iteration > MAX_TOOL_ITERATIONS {
        result := LoopError("Exceeded maximum tool iterations");
        return;
      }
      if iteration - 1 in interrupted {
        result := LoopError("Interrupted");
        return;
      }
      var stop;
      ghost var step;
      ghost var before := events;
      stop, toolsExecuted, messages, step :=
        OneIteration(thread, ReplyAt(script, iteration - 1), iteration, toolsExecuted, messages, autoApproved,
          requestId);
      events := events + step;
      if stop.Some? {
        result := stop.value;
        return;
      }
      ghost var rest := RunLoop(thread, script, iteration, toolsExecuted, messages, autoApproved, interrupted,
        requestId);
      Regroup(before, step, rest.events);
    }
  }
}
