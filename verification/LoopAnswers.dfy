/** What the loop does with the model's replies, said of the proposals and the messages themselves: which
    calls run, which one waits, what the model is shown next (src/agent/tool_executor.rs). */
module LoopAnswers {
  import opened Wrappers
  import opened Filtering
  import opened Chat
  import opened AgentLoop

  /** The user has to be asked: the tool requires approval, and either it was never approved for good or
      it is a shell command that always needs an answer. */
  predicate NeedsAnswer(p: Proposal, autoApproved: set<string>) {
    p.gated && (p.call.name !in autoApproved || (p.call.name == "shell" && p.destructive))
  }

  /** The calls before the first one that has to be asked for. */
  predicate RunsUpTo(ps: seq<Proposal>, autoApproved: set<string>, k: nat) {
    && k <= |ps|
    && (forall i | 0 <= i < k :: !NeedsAnswer(ps[i], autoApproved))
    && (k < |ps| ==> NeedsAnswer(ps[k], autoApproved))
  }

  function IsExecute(): Event -> bool {
    (e: Event) => e.Execute?
  }

  /** The executions among some events. */
  function Executed(events: seq<Event>): seq<Event> {
    Filter(events, IsExecute())
  }

  predicate Executes(e: Event, thread: nat, p: Proposal) {
    e.Execute? && e.thread == thread && e.call == p.call && e.outcome == p.outcome && e.gated == p.gated
  }

  predicate ExecutesAll(events: seq<Event>, thread: nat, ps: seq<Proposal>) {
    |events| == |ps| && forall i | 0 <= i < |ps| :: Executes(events[i], thread, ps[i])
  }

  /** A tool message answering a call with its output, or with its error. */
  predicate Reports(m: ChatMessage, p: Proposal) {
    && m.role == Tool && m.toolCallId == Some(p.call.id) && m.name == Some(p.call.name) && m.toolCalls == []
    && m.content == if p.outcome.Succeeded? then p.outcome.output else "Error: " + p.outcome.error
  }

  predicate ReportsAll(ms: seq<ChatMessage>, ps: seq<Proposal>) {
    |ms| == |ps| && forall i | 0 <= i < |ps| :: Reports(ms[i], ps[i])
  }

  // ---------- a batch ----------

  lemma ExecutedConcat(a: seq<Event>, b: seq<Event>)
    ensures Executed(a + b) == Executed(a) + Executed(b)
  {
    FilterConcat(a, b, IsExecute());
  }

  /** One execution, among its status updates. */
  lemma RanExecutes(thread: nat, p: Proposal)
    ensures ExecutesAll(Executed(Ran(thread, p)), thread, [p])
  {
    var started, execute := Status(thread, ToolStarted(p.call.name)), Ran(thread, p)[1];
    var rest := Ran(thread, p)[2..];
    assert Ran(thread, p) == [started] + ([execute] + rest);
    ExecutedConcat([started], [execute] + rest);
    ExecutedConcat([execute], rest);
    FilterOne(started, IsExecute());
    FilterOne(execute, IsExecute());
    FilterNone(rest, IsExecute());
    assert Executed(Ran(thread, p)) == [execute];
  }

  /** The first call that has to be asked for, if any, is the one that waits, with the results so far; the
      executions are exactly the calls before it, in order, and each has left its report. */
  lemma {:induction false} BatchAnswer(
    thread: nat, ps: seq<Proposal>, autoApproved: set<string>, context: seq<ChatMessage>, requestId: nat)
    returns (k: nat)
    ensures RunsUpTo(ps, autoApproved, k)
    ensures var out := RunBatch(thread, ps, autoApproved, context, requestId);
            && out.paused == (if k < |ps| then Some(PendingApproval(requestId, ps[k].call, out.context)) else None)
            && |out.context| == |context| + k && out.context[..|context|] == context
            && ReportsAll(out.context[|context|..], ps[..k])
            && ExecutesAll(Executed(out.events), thread, ps[..k])
    decreases |ps|
  {
    if ps == [] || NeedsAnswer(ps[0], autoApproved) {
      k := 0;
    } else {
      var m, rest := ResultMessage(ps[0].call, ps[0].outcome), ps[1..];
      var j := BatchAnswer(thread, rest, autoApproved, context + [m], requestId);
      k := j + 1;
      var out := RunBatch(thread, rest, autoApproved, context + [m], requestId);
      BatchHead(ps, context, m, out.context, j);
      RanExecutes(thread, ps[0]);
      ExecutedConcat(Ran(thread, ps[0]), out.events);
      ExecutesCons(Executed(Ran(thread, ps[0])), Executed(out.events), thread, ps, j);
    }
  }

  lemma BatchHead(ps: seq<Proposal>, context: seq<ChatMessage>, m: ChatMessage, after: seq<ChatMessage>, j: nat)
    requires ps != [] && j <= |ps| - 1 && Reports(m, ps[0])
    requires |after| == |context| + 1 + j && after[..|context| + 1] == context + [m]
    requires ReportsAll(after[|context| + 1..], ps[1..][..j])
    ensures after[..|context|] == context && ReportsAll(after[|context|..], ps[..j + 1])
  {
    assert after[|context|] == (context + [m])[|context|] == m;
    assert after[..|context|] == after[..|context| + 1][..|context|];
    forall i | 0 <= i < j + 1 ensures Reports(after[|context|..][i], ps[..j + 1][i]) {
      if i > 0 {
        assert after[|context|..][i] == after[|context| + 1..][i - 1];
        assert ps[i] == ps[1..][..j][i - 1];
      }
    }
  }

  lemma ExecutesCons(a: seq<Event>, b: seq<Event>, thread: nat, ps: seq<Proposal>, j: nat)
    requires ps != [] && j <= |ps| - 1 && ExecutesAll(a, thread, [ps[0]]) && ExecutesAll(b, thread, ps[1..][..j])
    ensures ExecutesAll(a + b, thread, ps[..j + 1])
  {
    forall i | 0 <= i < j + 1 ensures Executes((a + b)[i], thread, ps[..j + 1][i]) {
      if i > 0 {
        assert ps[i] == ps[1..][..j][i - 1];
      }
    }
  }

  /** A batch pauses exactly when some call has to be asked for. */
  lemma BatchPausesIff(
    thread: nat, ps: seq<Proposal>, autoApproved: set<string>, context: seq<ChatMessage>, requestId: nat)
    ensures RunBatch(thread, ps, autoApproved, context, requestId).paused.Some?
            <==> exists i :: 0 <= i < |ps| && NeedsAnswer(ps[i], autoApproved)
  {
    var k := BatchAnswer(thread, ps, autoApproved, context, requestId);
  }

  // ---------- the contexts shown ----------

  /** The contexts of the model calls among some events. */
  function ShownContexts(events: seq<Event>): seq<seq<ChatMessage>> {
    if events == [] then []
    else
      var e := events[|events| - 1];
      ShownContexts(events[..|events| - 1]) + if e.ModelCall? then [e.context] else []
  }

  lemma {:induction false} ShownConcat(a: seq<Event>, b: seq<Event>)
    ensures ShownContexts(a + b) == ShownContexts(a) + ShownContexts(b)
  {
    if b == [] {
      assert a + b == a;
    } else {
      assert (a + b)[..|a + b| - 1] == a + b[..|b| - 1];
      ShownConcat(a, b[..|b| - 1]);
    }
  }

  /** What a reply adds before the model is called again: its text and the nudge, or its calls and a report
      of every one of them. */
  predicate Grows(before: seq<ChatMessage>, after: seq<ChatMessage>, reply: Reply) {
    && |before| < |after| && after[..|before|] == before
    && match reply
       case ModelFailed => false
       case ModelText(text, _) =>
         after[|before|..]
         == [ChatMessage(Assistant, text, None, None, []),
             ChatMessage(User, "Please proceed and use the available tools to complete this task.", None, None, [])]
       case ModelCalls(content, ps) =>
         && after[|before|].role == Assistant && after[|before|].toolCalls == Calls(ps)
         && after[|before|].content == (if content.Some? then content.value else "")
         && ReportsAll(after[|before| + 1..], ps)
  }

  lemma {:induction false} BatchGrows(
    thread: nat, reply: Reply, context: seq<ChatMessage>, autoApproved: set<string>, requestId: nat)
    requires reply.ModelCalls?
    ensures var start := context + [AssistantWithToolCalls(reply.content, Calls(reply.proposals))];
            var out := RunBatch(thread, reply.proposals, autoApproved, start, requestId);
            && (out.paused.None? <==> forall p | p in reply.proposals :: !NeedsAnswer(p, autoApproved))
            && (out.paused.None? ==> Grows(context, out.context, reply))
  {
    var ps, start := reply.proposals, context + [AssistantWithToolCalls(reply.content, Calls(reply.proposals))];
    var k := BatchAnswer(thread, ps, autoApproved, start, requestId);
    var after := RunBatch(thread, ps, autoApproved, start, requestId).context;
    assert k < |ps| ==> ps[k] in ps;
    assert k == |ps| ==> ps[..k] == ps;
    assert after[..|context|] == after[..|start|][..|context|] == context;
    assert after[|context|] == after[..|start|][|context|] == start[|context|];
  }

  lemma {:induction false} CallsShowOnce(
    thread: nat, content: Option<string>, ps: seq<Proposal>, context: seq<ChatMessage>, autoApproved: set<string>,
    requestId: nat)
    ensures var start := context + [AssistantWithToolCalls(content, Calls(ps))];
            var more := RunBatch(thread, ps, autoApproved, start, requestId).events;
            ShownContexts([ModelCall(thread, context), Status(thread, Thinking)] + more) == [context]
  {
    var start := context + [AssistantWithToolCalls(content, Calls(ps))];
    var more := RunBatch(thread, ps, autoApproved, start, requestId).events;
    BatchShowsNone(thread, ps, autoApproved, start, requestId);
    ShownConcat([ModelCall(thread, context), Status(thread, Thinking)], more);
    ShownPair(thread, context, Status(thread, Thinking));
  }

  lemma ShownPair(thread: nat, context: seq<ChatMessage>, e: Event)
    requires !e.ModelCall?
    ensures ShownContexts([ModelCall(thread, context), e]) == [context]
  {
    assert [ModelCall(thread, context), e][..1] == [ModelCall(thread, context)];
    assert [ModelCall(thread, context)][..0] == [];
    assert ShownContexts([ModelCall(thread, context)]) == [context];
  }

  lemma {:induction false} IterationShowsOnce(
    thread: nat, reply: Reply, done: nat, toolsExecuted: bool, context: seq<ChatMessage>,
    autoApproved: set<string>, requestId: nat)
    ensures ShownContexts(Iterate(thread, reply, done, toolsExecuted, context, autoApproved, requestId).events)
            == [context]
  {
    match reply
    case ModelFailed => ShownPair(thread, context, Status(thread, Thinking));
    case ModelText(_, _) =>
      ShownPair(thread, context, Nudge(thread));
      assert [ModelCall(thread, context)][..0] == [];
    case ModelCalls(content, ps) => CallsShowOnce(thread, content, ps, context, autoApproved, requestId);
  }

  lemma {:induction false} NoneShown(events: seq<Event>)
    requires forall e | e in events :: !e.ModelCall?
    ensures ShownContexts(events) == []
  {
    if events != [] {
      NoneShown(events[..|events| - 1]);
    }
  }

  lemma {:induction false} BatchShowsNone(
    thread: nat, ps: seq<Proposal>, autoApproved: set<string>, context: seq<ChatMessage>, requestId: nat)
    ensures ShownContexts(RunBatch(thread, ps, autoApproved, context, requestId).events) == []
    decreases |ps|
  {
    if ps != [] && MayRun(ps[0], autoApproved) {
      var next := context + [ResultMessage(ps[0].call, ps[0].outcome)];
      BatchShowsNone(thread, ps[1..], autoApproved, next, requestId);
      NoneShown(Ran(thread, ps[0]));
      ShownConcat(Ran(thread, ps[0]), RunBatch(thread, ps[1..], autoApproved, next, requestId).events);
    }
  }

  /** The loop goes on after the `n`-th reply from `done`: a text is answered with a nudge only before any
      tool ran, in the first two iterations and when there are tools; a batch only if nothing in it has to
      be asked for. */
  predicate GoesOn(script: seq<Reply>, done: nat, n: nat, toolsExecuted: bool, autoApproved: set<string>) {
    match ReplyAt(script, done + n)
    case ModelFailed => false
    case ModelText(_, toolsAvailable) =>
      && toolsAvailable && done + n < 2 && !toolsExecuted
      && forall m: nat | done <= m < done + n :: !ReplyAt(script, m).ModelCalls?
    case ModelCalls(_, ps) => forall p | p in ps :: !NeedsAnswer(p, autoApproved)
  }

  /** The reply that ends a run gives its result: the text of an answer, the call that has to be asked for,
      or an error. */
  predicate EndsWith(result: LoopResult, reply: Reply, autoApproved: set<string>) {
    match reply
    case ModelFailed => result.LoopError?
    case ModelText(text, _) => result == Response(text)
    case ModelCalls(_, ps) =>
      result.NeedApproval? && exists p :: p in ps && p.call == result.pending.call && NeedsAnswer(p, autoApproved)
  }

  /** Stopped before the call number `at`: by the limit of ten, or by an interruption. */
  predicate Halted(result: LoopResult, at: nat, interrupted: set<nat>) {
    if at == 10 then result == LoopError("Exceeded maximum tool iterations")
    else at in interrupted && result == LoopError("Interrupted")
  }

  /** Each context shown has grown from the one before by the reply to it. */
  predicate Chained(
    shown: seq<seq<ChatMessage>>, script: seq<Reply>, done: nat, toolsExecuted: bool, autoApproved: set<string>)
  {
    forall n | 0 <= n < |shown| - 1 ::
      && GoesOn(script, done, n, toolsExecuted, autoApproved)
      && Grows(shown[n], shown[n + 1], ReplyAt(script, done + n))
  }

  /** After `n` calls the loop was halted, or the reply to the last one ended it. */
  predicate Ended(
    result: LoopResult, n: nat, script: seq<Reply>, done: nat, toolsExecuted: bool, autoApproved: set<string>,
    interrupted: set<nat>)
  {
    if n == 0 || GoesOn(script, done, n - 1, toolsExecuted, autoApproved) then Halted(result, done + n, interrupted)
    else EndsWith(result, ReplyAt(script, done + n - 1), autoApproved)
  }

  lemma {:induction false} IterationEnds(
    thread: nat, script: seq<Reply>, done: nat, toolsExecuted: bool, context: seq<ChatMessage>,
    autoApproved: set<string>, requestId: nat)
    ensures var reply := ReplyAt(script, done);
            var step := Iterate(thread, reply, done, toolsExecuted, context, autoApproved, requestId);
            && (step.Continue? <==> GoesOn(script, done, 0, toolsExecuted, autoApproved))
            && (step.Stop? ==> EndsWith(step.result, reply, autoApproved))
            && (step.Continue? ==> Grows(context, step.context, reply) && step.toolsExecuted == reply.ModelCalls?)
  {
    var reply := ReplyAt(script, done);
    if reply.ModelCalls? {
      var start := context + [AssistantWithToolCalls(reply.content, Calls(reply.proposals))];
      BatchGrows(thread, reply, context, autoApproved, requestId);
      var k := BatchAnswer(thread, reply.proposals, autoApproved, start, requestId);
      assert k < |reply.proposals| ==> reply.proposals[k] in reply.proposals;
    }
  }

  /** One iteration later, the same replies decide. */
  lemma GoesOnShift(script: seq<Reply>, done: nat, n: nat, toolsExecuted: bool, autoApproved: set<string>)
    requires GoesOn(script, done, 0, toolsExecuted, autoApproved)
    ensures GoesOn(script, done + 1, n, ReplyAt(script, done).ModelCalls?, autoApproved)
            <==> GoesOn(script, done, n + 1, toolsExecuted, autoApproved)
  {
    assert done + 1 + n == done + (n + 1) && done + 0 == done;
    if ReplyAt(script, done).ModelCalls? {
      assert done <= done < done + (n + 1);
    }
  }

  /** A run told by the contexts it shows: the first is the one it starts from, each next one has grown by the
      reply to the one before, at most ten are shown in all, and the last reply gives the result unless the
      limit or an interruption does. */
  predicate Told(
    result: LoopResult, shown: seq<seq<ChatMessage>>, script: seq<Reply>, done: nat, toolsExecuted: bool,
    context: seq<ChatMessage>, autoApproved: set<string>, interrupted: set<nat>)
  {
    && done + |shown| <= 10 && (shown == [] <==> done == 10 || done in interrupted)
    && (shown != [] ==> shown[0] == context)
    && Chained(shown, script, done, toolsExecuted, autoApproved)
    && Ended(result, |shown|, script, done, toolsExecuted, autoApproved, interrupted)
  }

  lemma {:induction false} ChainedCons(
    context: seq<ChatMessage>, rest: seq<seq<ChatMessage>>, script: seq<Reply>, done: nat, toolsExecuted: bool,
    autoApproved: set<string>)
    requires GoesOn(script, done, 0, toolsExecuted, autoApproved)
    requires rest != [] ==> Grows(context, rest[0], ReplyAt(script, done))
    requires Chained(rest, script, done + 1, ReplyAt(script, done).ModelCalls?, autoApproved)
    ensures Chained([context] + rest, script, done, toolsExecuted, autoApproved)
  {
    var all := [context] + rest;
    forall n | 0 <= n < |all| - 1
      ensures GoesOn(script, done, n, toolsExecuted, autoApproved)
      ensures Grows(all[n], all[n + 1], ReplyAt(script, done + n))
    {
      if n > 0 {
        GoesOnShift(script, done, n - 1, toolsExecuted, autoApproved);
        assert all[n] == rest[n - 1] && all[n + 1] == rest[n - 1 + 1];
      }
    }
  }

  lemma {:induction false} ToldCons(
    result: LoopResult, rest: seq<seq<ChatMessage>>, script: seq<Reply>, done: nat, toolsExecuted: bool,
    context: seq<ChatMessage>, next: seq<ChatMessage>, autoApproved: set<string>, interrupted: set<nat>)
    requires done < 10 && done !in interrupted && GoesOn(script, done, 0, toolsExecuted, autoApproved)
    requires Grows(context, next, ReplyAt(script, done))
    requires Told(result, rest, script, done + 1, ReplyAt(script, done).ModelCalls?, next, autoApproved, interrupted)
    ensures Told(result, [context] + rest, script, done, toolsExecuted, context, autoApproved, interrupted)
  {
    ChainedCons(context, rest, script, done, toolsExecuted, autoApproved);
    if |rest| > 0 {
      GoesOnShift(script, done, |rest| - 1, toolsExecuted, autoApproved);
    }
  }

  /** Every run of the loop is told that way. */
  lemma {:induction false} LoopAnswer(
    thread: nat, script: seq<Reply>, done: nat, toolsExecuted: bool, context: seq<ChatMessage>,
    autoApproved: set<string>, interrupted: set<nat>, requestId: nat)
    requires done <= 10
    ensures var out := RunLoop(thread, script, done, toolsExecuted, context, autoApproved, interrupted, requestId);
            Told(out.result, ShownContexts(out.events), script, done, toolsExecuted, context, autoApproved, interrupted)
    decreases 10 - done
  {
    if done < 10 && done !in interrupted {
      var reply := ReplyAt(script, done);
      var step := Iterate(thread, reply, done, toolsExecuted, context, autoApproved, requestId);
      IterationShowsOnce(thread, reply, done, toolsExecuted, context, autoApproved, requestId);
      IterationEnds(thread, script, done, toolsExecuted, context, autoApproved, requestId);
      if step.Continue? {
        var executed, next := step.toolsExecuted, step.context;
        LoopAnswer(thread, script, done + 1, executed, next, autoApproved, interrupted, requestId);
        var rest := RunLoop(thread, script, done + 1, executed, next, autoApproved, interrupted, requestId);
        var shown := ShownContexts(rest.events);
        ShownConcat(step.events, rest.events);
        ToldCons(rest.result, shown, script, done, toolsExecuted, context, next, autoApproved, interrupted);
      } else {
        ToldOnce(step.result, script, done, toolsExecuted, context, autoApproved, interrupted);
      }
    }
  }

  lemma ToldOnce(
    result: LoopResult, script: seq<Reply>, done: nat, toolsExecuted: bool, context: seq<ChatMessage>,
    autoApproved: set<string>, interrupted: set<nat>)
    requires done < 10 && done !in interrupted && !GoesOn(script, done, 0, toolsExecuted, autoApproved)
    requires EndsWith(result, ReplyAt(script, done), autoApproved)
    ensures Told(result, [context], script, done, toolsExecuted, context, autoApproved, interrupted)
  {
  }
}
