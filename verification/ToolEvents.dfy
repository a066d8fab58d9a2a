/** How a todo agent's status updates become activity events (src/channels/todo_channel.rs). */
module ToolEvents {
  import opened Wrappers
  import opened Chat
  import opened Conversation
  import opened AgentLoop
  import opened Sessions

  datatype Activity =
    | ToolDone(toolName: string, success: bool, summary: string)
    | Reasoning
    | ApprovalAsked(requestId: nat)
    | AgentResponse(content: string)
    | RunCompleted
    | RunFailed

  /** A finished tool is held back until its output, if any, has arrived. */
  datatype Held = Held(toolName: string, success: bool)

  function Flush(held: Option<Held>): seq<Activity> {
    if held.Some? then [ToolDone(held.value.toolName, held.value.success, "")] else []
  }

  datatype Fed = Fed(held: Option<Held>, emitted: seq<Activity>)

  function OnStatus(held: Option<Held>, status: StatusUpdate): Fed {
    match status
    case Thinking => Fed(None, Flush(held) + [Reasoning])
    case ToolStarted(_) => Fed(None, Flush(held))
    case ToolCompleted(name, success) => Fed(Some(Held(name, success)), [])
    case ToolResult(name, preview) =>
      Fed(None, [ToolDone(name, if held.Some? then held.value.success else true, preview)])
    case ApprovalNeeded(id, _) => Fed(None, Flush(held) + [ApprovalAsked(id)])
    case Note => Fed(held, [])
  }

  /** Feed a trace's status updates to the channel, in order. */
  function Feed(held: Option<Held>, events: seq<Event>): Fed {
    if events == [] then Fed(held, [])
    else
      var before := Feed(held, events[..|events| - 1]);
      var e := events[|events| - 1];
      if !e.Status? then before
      else
        var now := OnStatus(before.held, e.status);
        Fed(now.held, before.emitted + now.emitted)
  }

  function ToolsOf(activities: seq<Activity>): seq<Activity> {
    if activities == [] then []
    else
      var a := activities[|activities| - 1];
      ToolsOf(activities[..|activities| - 1]) + (if a.ToolDone? then [a] else [])
  }

  /** One event for each execution: its name, whether it succeeded, its output as summary. */
  function Executions(events: seq<Event>): seq<Activity> {
    if events == [] then []
    else
      var e := events[|events| - 1];
      Executions(events[..|events| - 1])
      + (if e.Execute? then
           [ToolDone(e.call.name, e.outcome.Succeeded?, if e.outcome.Succeeded? then e.outcome.output else "")]
         else [])
  }

  lemma {:induction false} FeedConcat(held: Option<Held>, a: seq<Event>, b: seq<Event>)
    ensures var first := Feed(held, a);
            var second := Feed(first.held, b);
            Feed(held, a + b) == Fed(second.held, first.emitted + second.emitted)
  {
    if b == [] {
      assert a + b == a;
    } else {
      assert (a + b)[..|a + b| - 1] == a + b[..|b| - 1];
      FeedConcat(held, a, b[..|b| - 1]);
    }
  }

  lemma {:induction false} ToolsConcat(a: seq<Activity>, b: seq<Activity>)
    ensures ToolsOf(a + b) == ToolsOf(a) + ToolsOf(b)
  {
    if b == [] {
      assert a + b == a;
    } else {
      assert (a + b)[..|a + b| - 1] == a + b[..|b| - 1];
      ToolsConcat(a, b[..|b| - 1]);
    }
  }

  lemma {:induction false} ExecutionsConcat(a: seq<Event>, b: seq<Event>)
    ensures Executions(a + b) == Executions(a) + Executions(b)
  {
    if b == [] {
      assert a + b == a;
    } else {
      assert (a + b)[..|a + b| - 1] == a + b[..|b| - 1];
      ExecutionsConcat(a, b[..|b| - 1]);
    }
  }

  /** Whatever was held back before, what comes out plus what stays held back is that and one event per execution. */
  ghost predicate ConservesFrom(events: seq<Event>, held: Option<Held>) {
    var fed := Feed(held, events);
    ToolsOf(fed.emitted) + Flush(fed.held) == Flush(held) + Executions(events)
  }

  ghost predicate Conserves(events: seq<Event>) {
    forall held :: ConservesFrom(events, held)
  }

  lemma Telescope<T>(t1: seq<T>, t2: seq<T>, f0: seq<T>, f1: seq<T>, f2: seq<T>, ea: seq<T>, eb: seq<T>)
    requires t1 + f1 == f0 + ea && t2 + f2 == f1 + eb
    ensures (t1 + t2) + f2 == f0 + (ea + eb)
  {
    assert (t1 + t2) + f2 == t1 + (f1 + eb);
    assert t1 + (f1 + eb) == (f0 + ea) + eb;
  }

  lemma ConservesConcatFrom(a: seq<Event>, b: seq<Event>, held: Option<Held>)
    requires ConservesFrom(a, held) && ConservesFrom(b, Feed(held, a).held)
    ensures ConservesFrom(a + b, held)
  {
    var first := Feed(held, a);
    var second := Feed(first.held, b);
    FeedConcat(held, a, b);
    ToolsConcat(first.emitted, second.emitted);
    ExecutionsConcat(a, b);
    Telescope(ToolsOf(first.emitted), ToolsOf(second.emitted), Flush(held), Flush(first.held), Flush(second.held),
              Executions(a), Executions(b));
  }

  lemma ConservesConcat(a: seq<Event>, b: seq<Event>)
    requires Conserves(a) && Conserves(b)
    ensures Conserves(a + b)
  {
    forall held ensures ConservesFrom(a + b, held) {
      assert ConservesFrom(a, held) && ConservesFrom(b, Feed(held, a).held);
      ConservesConcatFrom(a, b, held);
    }
  }

  /** Events that neither execute nor report a tool. */
  predicate Bystander(e: Event) {
    !e.Execute? && (e.Status? ==> e.status.Thinking? || e.status.ApprovalNeeded? || e.status.Note?)
  }

  lemma OneFed(held: Option<Held>, e: Event)
    ensures Feed(held, [e]) == if e.Status? then OnStatus(held, e.status) else Fed(held, [])
    ensures Executions([e]) == if e.Execute?
              then [ToolDone(e.call.name, e.outcome.Succeeded?, if e.outcome.Succeeded? then e.outcome.output else "")]
              else []
  {
    assert [e][..0] == [];
  }

  /** A completion and its output are one event, with the completion's own name and flag and the output as
      summary, and nothing stays held. */
  lemma {:induction false} CompletionTakesOutput(thread: nat, name: string, success: bool, output: string)
    ensures var fed := Feed(None, [Status(thread, ToolCompleted(name, success)),
            Status(thread, ToolResult(name, output))]);
            fed == Fed(None, [ToolDone(name, success, output)])
  {
    var first, second := Status(thread, ToolCompleted(name, success)), Status(thread, ToolResult(name, output));
    assert [first, second][..1] == [first] && [first][..0] == [];
    assert Feed(None, [first]) == Fed(Some(Held(name, success)), [] + []);
    assert Feed(None, [first, second]).emitted == ([] + []) + [ToolDone(name, success, output)];
  }

  lemma ToolsSnoc(a: seq<Activity>, x: Activity)
    ensures ToolsOf(a + [x]) == ToolsOf(a) + (if x.ToolDone? then [x] else [])
  {
    assert (a + [x])[..|a + [x]| - 1] == a;
  }

  lemma FlushIsTools(held: Option<Held>)
    ensures ToolsOf(Flush(held)) == Flush(held)
  {
    if held.Some? {
      ToolsSnoc([], Flush(held)[0]);
      assert [] + Flush(held) == Flush(held);
    }
  }

  lemma FlushThen(held: Option<Held>, x: Activity)
    requires !x.ToolDone?
    ensures ToolsOf(Flush(held) + [x]) + Flush(None) == Flush(held) + []
  {
    FlushIsTools(held);
    ToolsSnoc(Flush(held), x);
  }

  lemma NothingFed(held: Option<Held>)
    ensures ToolsOf([]) + Flush(held) == Flush(held) + []
  {
  }

  lemma {:induction false} NotePasses(e: Event, held: Option<Held>)
    requires Bystander(e) && (e.Status? ==> e.status.Note?)
    ensures ConservesFrom([e], held)
  {
    OneFed(held, e);
    NothingFed(held);
  }

  lemma {:induction false} StatusFlushes(e: Event, held: Option<Held>, x: Activity)
    requires e.Status? && OnStatus(held, e.status) == Fed(None, Flush(held) + [x]) && !x.ToolDone?
    ensures ConservesFrom([e], held)
  {
    OneFed(held, e);
    FlushThen(held, x);
  }

  lemma {:induction false} BystanderConservesFrom(e: Event, held: Option<Held>)
    requires Bystander(e)
    ensures ConservesFrom([e], held)
  {
    if e.Status? && e.status.Thinking? {
      StatusFlushes(e, held, Reasoning);
    } else if e.Status? && e.status.ApprovalNeeded? {
      StatusFlushes(e, held, ApprovalAsked(e.status.requestId));
    } else {
      NotePasses(e, held);
    }
  }

  lemma BystanderConserves(e: Event)
    requires Bystander(e)
    ensures Conserves([e])
  {
    forall held ensures ConservesFrom([e], held) {
      BystanderConservesFrom(e, held);
    }
  }

  lemma {:induction false} BystandersConserve(events: seq<Event>)
    requires forall i | 0 <= i < |events| :: Bystander(events[i])
    ensures Conserves(events)
  {
    if events != [] {
      var n := |events| - 1;
      BystandersConserve(events[..n]);
      BystanderConserves(events[n]);
      ConservesConcat(events[..n], [events[n]]);
      assert events[..n] + [events[n]] == events;
    }
  }

  lemma RunsOne(thread: nat, call: ToolCall, gated: bool, explicitOnly: bool, outcome: Outcome, held: Option<Held>)
    ensures var run := Execution(thread, call, gated, explicitOnly, outcome)[..3];
            && Feed(held, run) == Fed(Some(Held(call.name, outcome.Succeeded?)), Flush(held))
            && Executions(run) == [ToolDone(call.name, outcome.Succeeded?, if outcome.Succeeded? then outcome.output
               else "")]
  {
    var run := Execution(thread, call, gated, explicitOnly, outcome)[..3];
    var a, b, c := run[0], run[1], run[2];
    assert run == [a, b, c] == [a, b] + [c] && [a, b] == [a] + [b];
    OneFed(held, a);
    OneFed(None, b);
    OneFed(None, c);
    FeedConcat(held, [a], [b]);
    FeedConcat(held, [a, b], [c]);
    ExecutionsConcat([a], [b]);
    ExecutionsConcat([a, b], [c]);
  }

  lemma {:induction false} OutputMerges(run: seq<Event>, thread: nat, name: string, output: string, held: Option<Held>)
    requires Feed(held, run) == Fed(Some(Held(name, true)), Flush(held))
    requires Executions(run) == [ToolDone(name, true, output)]
    ensures ConservesFrom(run + [Status(thread, ToolResult(name, output))], held)
  {
    var d := Status(thread, ToolResult(name, output));
    FeedConcat(held, run, [d]);
    ExecutionsConcat(run, [d]);
    OneFed(Some(Held(name, true)), d);
    FlushIsTools(held);
    ToolsSnoc(Flush(held), ToolDone(name, true, output));
  }

  /** The executor's own sequence for one call: started, executed, completed, and its output if any. */
  lemma ExecutionConserves(thread: nat, call: ToolCall, gated: bool, explicitOnly: bool, outcome: Outcome)
    ensures Conserves(Execution(thread, call, gated, explicitOnly, outcome))
  {
    var all := Execution(thread, call, gated, explicitOnly, outcome);
    var run := all[..3];
    forall held ensures ConservesFrom(all, held) {
      RunsOne(thread, call, gated, explicitOnly, outcome, held);
      if outcome.Succeeded? && outcome.output != "" {
        assert all == run + [Status(thread, ToolResult(call.name, outcome.output))];
        OutputMerges(run, thread, call.name, outcome.output, held);
      } else {
        assert all == run;
        FlushIsTools(held);
      }
    }
  }

  // ---------- everything the executor produces ----------

  lemma {:induction false} BatchConserves(
    thread: nat, ps: seq<Proposal>, auto: set<string>, ctx: seq<ChatMessage>, rid: nat)
    ensures Conserves(RunBatch(thread, ps, auto, ctx, rid).events)
  {
    if ps == [] || !MayRun(ps[0], auto) {
      BystandersConserve([]);
    } else {
      var next := ctx + [ResultMessage(ps[0].call, ps[0].outcome)];
      BatchConserves(thread, ps[1..], auto, next, rid);
      ExecutionConserves(thread, ps[0].call, ps[0].gated, ExplicitOnly(ps[0]), ps[0].outcome);
      ConservesConcat(Ran(thread, ps[0]), RunBatch(thread, ps[1..], auto, next, rid).events);
    }
  }

  lemma IterationConserves(
    thread: nat, reply: Reply, done: nat, toolsExecuted: bool, ctx: seq<ChatMessage>, auto: set<string>, rid: nat)
    ensures Conserves(Iterate(thread, reply, done, toolsExecuted, ctx, auto, rid).events)
  {
    var call, think := ModelCall(thread, ctx), Status(thread, Thinking);
    BystandersConserve([call]);
    BystandersConserve([call, think]);
    BystandersConserve([call, Nudge(thread)]);
    if reply.ModelCalls? {
      var asked := ctx + [AssistantWithToolCalls(reply.content, Calls(reply.proposals))];
      BatchConserves(thread, reply.proposals, auto, asked, rid);
      ConservesConcat([call, think], RunBatch(thread, reply.proposals, auto, asked, rid).events);
    }
  }

  lemma {:induction false} LoopConserves(
    thread: nat, script: seq<Reply>, done: nat, toolsExecuted: bool, ctx: seq<ChatMessage>,
    auto: set<string>, interrupted: set<nat>, rid: nat)
    ensures Conserves(RunLoop(thread, script, done, toolsExecuted, ctx, auto, interrupted, rid).events)
    decreases MAX_TOOL_ITERATIONS - done
  {
    if done >= MAX_TOOL_ITERATIONS || done in interrupted {
      BystandersConserve([]);
    } else {
      IterationConserves(thread, ReplyAt(script, done), done, toolsExecuted, ctx, auto, rid);
      var step := Iterate(thread, ReplyAt(script, done), done, toolsExecuted, ctx, auto, rid);
      if step.Continue? {
        var rest := RunLoop(thread, script, done + 1, step.toolsExecuted, step.context, auto, interrupted, rid);
        LoopConserves(thread, script, done + 1, step.toolsExecuted, step.context, auto, interrupted, rid);
        ConservesConcat(step.events, rest.events);
        assert RunLoop(thread, script, done, toolsExecuted, ctx, auto, interrupted, rid).events
               == step.events + rest.events;
      }
    }
  }

  lemma {:induction false} UserInputConserves(s: Session, i: Input)
    requires i.UserInput? && TurnStarts(s, i) && Conserves(s.trace)
    ensures Conserves(UserInputStep(s, i).trace)
  {
    var out, think := UserInputLoop(s, i), [Status(i.thread, Thinking)];
    LoopConserves(i.thread, i.script, 0, false, WithSystemPrompt(Messages(TurnStarted(s, i).thread.turns),
      i.systemPrompt),
                  s.autoApproved, {}, s.nextRequest);
    BystandersConserve(think);
    ConservesConcat(think, out.events);
    BystandersConserve(FinalEvents(i.thread, out.result));
    ConservesConcat(think + out.events, FinalEvents(i.thread, out.result));
    ConservesConcat(s.trace, think + out.events + FinalEvents(i.thread, out.result));
  }

  lemma {:induction false} ApprovedConserves(s: Session, i: Input)
    requires i.ApprovalAnswer? && AnswerMatches(s, i) && i.approved && Conserves(s.trace)
    ensures Conserves(ApprovalStep(s, i).trace)
  {
    var p, out := s.slots[i.thread].thread.pending.value, ResumedLoop(s, i);
    var answer := [Answer(i.thread, i.requestId, i.approved, i.always)];
    var run := Execution(i.thread, p.call, true, true, i.outcome);
    BystandersConserve(answer);
    ExecutionConserves(i.thread, p.call, true, true, i.outcome);
    LoopConserves(i.thread, i.script, 0, true, p.context + [ResultMessage(p.call, i.outcome)],
                  AutoApprovedAfter(s, i), {}, s.nextRequest);
    BystandersConserve(FinalEvents(i.thread, out.result));
    ConservesConcat(answer, run);
    ConservesConcat(answer + run, out.events);
    ConservesConcat(answer + run + out.events, FinalEvents(i.thread, out.result));
    ConservesConcat(s.trace, answer + run + out.events + FinalEvents(i.thread, out.result));
  }

  lemma QuietStepConserves(s: Session, next: Session, events: seq<Event>)
    requires Conserves(s.trace) && next.trace == s.trace + events
    requires forall i | 0 <= i < |events| :: Bystander(events[i])
    ensures Conserves(next.trace)
  {
    BystandersConserve(events);
    ConservesConcat(s.trace, events);
  }

  lemma {:induction false} StepConserves(s: Session, i: Input)
    requires Conserves(s.trace)
    ensures Conserves(Step(s, i).trace)
  {
    match i
    case UserInput(_, _, _, _, _, _) =>
      if TurnStarts(s, i) { UserInputConserves(s, i); }
    case ApprovalAnswer(id, rid, approved, always, _, _) =>
      if AnswerMatches(s, i) && approved {
        ApprovedConserves(s, i);
      } else {
        QuietStepConserves(s, Step(s, i),
                           [Answer(id, rid, approved, always)]
                             + (if AnswerMatches(s, i) then [Status(id, Note)] else []));
      }
    case InterruptTurn(id) => QuietStepConserves(s, Step(s, i), [Interrupt(id)]);
    case ClearThread(id) => QuietStepConserves(s, Step(s, i), [Clear(id)]);
    case UndoTurn(id) => QuietStepConserves(s, WithRestore(s, id), [Restore(id)]);
    case RedoTurn(id) => QuietStepConserves(s, WithRestore(s, id), [Restore(id)]);
    case ResumeFrom(id, _) => QuietStepConserves(s, WithRestore(s, id), [Restore(id)]);
    case CompactThread(_, _) =>
    case OpenThread(_, _) =>
  }

  function WithRestore(s: Session, id: nat): Session {
    Log(s, [Restore(id)])
  }

  lemma {:induction false} RunConserves(inputs: seq<Input>)
    ensures Conserves(Run(NEW_SESSION, inputs).trace)
  {
    if inputs == [] {
      BystandersConserve([]);
    } else {
      RunConserves(inputs[..|inputs| - 1]);
      StepConserves(Run(NEW_SESSION, inputs[..|inputs| - 1]), inputs[|inputs| - 1]);
    }
  }

  /** Over every run, the ToolDone events emitted by shutdown are the executions, one for one and in
      order, with the right success flag and the output (or nothing) as summary. */
  lemma {:induction false} ToolEventsMatchExecutions(inputs: seq<Input>)
    ensures var trace := Run(NEW_SESSION, inputs).trace;
            var fed := Feed(None, trace);
            ToolsOf(fed.emitted + Flush(fed.held)) == Executions(trace)
  {
    RunConserves(inputs);
    var trace := Run(NEW_SESSION, inputs).trace;
    var fed := Feed(None, trace);
    assert ConservesFrom(trace, None);
    ToolsConcat(fed.emitted, Flush(fed.held));
    FlushIsTools(fed.held);
  }

  // ---------- the channel object ----------

  class TodoChannel {
    var pendingTool: Option<Held>
    var emitted: seq<Activity>
    var responded: bool

    constructor ()
      ensures pendingTool == None && emitted == [] && !responded
    {
      pendingTool, emitted, responded := None, [], false;
    }

    method FlushPendingTool()
      modifies this`pendingTool, this`emitted
      ensures pendingTool == None && emitted == old(emitted) + Flush(old(pendingTool))
    {
      if pendingTool.Some? {
        emitted := emitted + [ToolDone(pendingTool.value.toolName, pendingTool.value.success, "")];
        pendingTool := None;
      }
    }

    method SendStatus(status: StatusUpdate)
      modifies this`pendingTool, this`emitted
      ensures var fed := OnStatus(old(pendingTool), status);
              pendingTool == fed.held && emitted == old(emitted) + fed.emitted
    {
      match status
      case Thinking =>
        FlushPendingTool();
        emitted := emitted + [Reasoning];
      case ToolStarted(_) => FlushPendingTool();
      case ToolCompleted(name, success) => pendingTool := Some(Held(name, success));
      case ToolResult(name, preview) =>
        var success := true;
        if pendingTool.Some? {
          success := pendingTool.value.success;
          pendingTool := None;
        }
        emitted := emitted + [ToolDone(name, success, preview)];
      case ApprovalNeeded(id, _) =>
        FlushPendingTool();
        emitted := emitted + [ApprovalAsked(id)];
      case Note =>
    }

    /** The final response does not flush a held tool event; shutdown does. */
    method Respond(content: string)
      modifies this`emitted, this`responded
      ensures responded && emitted == old(emitted) + [AgentResponse(content), RunCompleted]
    {
      responded := true;
      emitted := emitted + [AgentResponse(content)];
      emitted := emitted + [RunCompleted];
    }

    method Shutdown()
      modifies this`pendingTool, this`emitted
      ensures pendingTool == None
      ensures emitted == old(emitted) + Flush(old(pendingTool)) + (if responded then [] else [RunFailed])
    {
      FlushPendingTool();
      if !responded {
        emitted := emitted + [RunFailed];
      }
    }

    method FeedAll(events: seq<Event>)
      requires pendingTool == None && emitted == []
      modifies this`pendingTool, this`emitted
      ensures Fed(pendingTool, emitted) == Feed(None, events)
    {
      for i := 0 to |events|
        invariant Fed(pendingTool, emitted) == Feed(None, events[..i])
      {
        assert events[..i + 1][..i] == events[..i];
        if events[i].Status? {
          SendStatus(events[i].status);
        }
      }
      assert events[..|events|] == events;
    }

    /** A whole run: feed every status, then respond if there is something to say, then shut down. */
    method Drive(events: seq<Event>, response: Option<string>)
      requires pendingTool == None && emitted == [] && Conserves(events)
      modifies this
      ensures ToolsOf(emitted) == Executions(events)
    {
      FeedAll(events);
      ghost var held, fed := pendingTool, emitted;
      if response.Some? {
        Respond(response.value);
      }
      ghost var said := emitted[|fed|..];
      assert emitted == fed + said;
      Shutdown();
      ghost var tail := if responded then [] else [RunFailed];
      DrivenTools(events, fed, said, held, tail);
    }
  }

  lemma PadNothing<T>(a: seq<T>, b: seq<T>)
    ensures a + [] + b + [] == a + b
  {
  }

  lemma DrivenTools(
    events: seq<Event>, fed: seq<Activity>, said: seq<Activity>, held: Option<Held>, tail: seq<Activity>)
    requires Conserves(events) && Fed(held, fed) == Feed(None, events)
    requires said == [] || (exists text :: said == [AgentResponse(text), RunCompleted])
    requires tail == [] || tail == [RunFailed]
    ensures ToolsOf(fed + said + Flush(held) + tail) == Executions(events)
  {
    assert ConservesFrom(events, None);
    FlushIsTools(held);
    NoTools(said);
    NoTools(tail);
    ToolsConcat(fed + said + Flush(held), tail);
    ToolsConcat(fed + said, Flush(held));
    ToolsConcat(fed, said);
    assert Flush(None) + Executions(events) == Executions(events);
    PadNothing(ToolsOf(fed), Flush(held));
  }

  lemma {:induction false} NoTools(activities: seq<Activity>)
    requires forall i | 0 <= i < |activities| :: !activities[i].ToolDone?
    ensures ToolsOf(activities) == []
  {
    if activities != [] {
      NoTools(activities[..|activities| - 1]);
    }
  }
}
