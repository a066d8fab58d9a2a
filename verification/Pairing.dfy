/** Tool-call messages and the results that follow them in the context shown to the model. */
module Pairing {
  import opened Wrappers
  import opened Chat
  import opened AgentLoop

  predicate IsResultFor(m: ChatMessage, call: ToolCall) {
    m.role == Tool && m.toolCallId == Some(call.id) && m.name == Some(call.name)
  }

  /** The message at `p` is followed by the results of its first `k` calls, in call order. */
  predicate Results(ctx: seq<ChatMessage>, p: nat, k: nat)
    requires p < |ctx|
  {
    && k <= |ctx[p].toolCalls| && p + k < |ctx|
    && forall m | 0 <= m < k :: IsResultFor(ctx[p + 1 + m], ctx[p].toolCalls[m])
  }

  /** The k-th call of the message at `p` was paused with exactly the context before its result, and approved. */
  predicate PausedAt(ctx: seq<ChatMessage>, p: nat, k: nat, approved: set<PendingApproval>)
    requires p < |ctx| && 0 < k <= |ctx[p].toolCalls| && p + k <= |ctx|
  {
    exists r | r in approved :: r.context == ctx[..p + k] && r.call == ctx[p].toolCalls[k - 1]
  }

  /** Exactly k >= 1 results follow, and all of them unless an approved pause cut the batch short. */
  predicate Block(ctx: seq<ChatMessage>, p: nat, k: nat, approved: set<PendingApproval>)
    requires p < |ctx|
  {
    && k > 0 && Results(ctx, p, k)
    && (p + k + 1 < |ctx| ==> ctx[p + k + 1].role != Tool)
    && (k < |ctx[p].toolCalls| ==> PausedAt(ctx, p, k, approved))
  }

  ghost predicate PairedAt(ctx: seq<ChatMessage>, p: nat, approved: set<PendingApproval>)
    requires p < |ctx|
  {
    ctx[p].toolCalls != [] ==> exists k: nat :: Block(ctx, p, k, approved)
  }

  ghost predicate Paired(ctx: seq<ChatMessage>, approved: set<PendingApproval>) {
    forall p: nat | p < |ctx| :: PairedAt(ctx, p, approved)
  }

  /** A batch in progress: everything before `p` is paired and the last k messages are the first k results. */
  ghost predicate Open(ctx: seq<ChatMessage>, p: nat, k: nat, approved: set<PendingApproval>) {
    && p < |ctx| && Results(ctx, p, k) && p + k + 1 == |ctx| && ctx[p].role != Tool
    && (forall q: nat | q < p :: PairedAt(ctx, q, approved))
    && (forall q | p < q < |ctx| :: ctx[q].toolCalls == [])
  }

  /** A context saved for approval: an open batch whose next call is the one waiting. */
  ghost predicate AwaitsResult(pending: PendingApproval, approved: set<PendingApproval>) {
    exists p: nat, k: nat ::
      && Open(pending.context, p, k, approved) && k < |pending.context[p].toolCalls|
      && pending.context[p].toolCalls[k] == pending.call
  }

  lemma PairedAtMonotone(
    ctx: seq<ChatMessage>, p: nat, more: seq<ChatMessage>, small: set<PendingApproval>, large: set<PendingApproval>)
    requires p < |ctx| && PairedAt(ctx, p, small) && small <= large
    requires more != [] && |ctx| > 0 ==> more[0].role != Tool
    ensures PairedAt(ctx + more, p, large)
  {
    var longer := ctx + more;
    if ctx[p].toolCalls != [] {
      var k: nat :| Block(ctx, p, k, small);
      assert longer[..p + k] == ctx[..p + k];
      assert Block(longer, p, k, large);
    }
  }

  lemma AwaitsMonotone(pending: PendingApproval, small: set<PendingApproval>, large: set<PendingApproval>)
    requires AwaitsResult(pending, small) && small <= large
    ensures AwaitsResult(pending, large)
  {
    var ctx := pending.context;
    var p: nat, k: nat :| Open(ctx, p, k, small) && k < |ctx[p].toolCalls| && ctx[p].toolCalls[k] == pending.call;
    forall q: nat | q < p ensures PairedAt(ctx, q, large) {
      PairedAtMonotone(ctx, q, [], small, large);
      assert ctx + [] == ctx;
    }
    assert Open(ctx, p, k, large);
  }

  lemma PlainIsPaired(ctx: seq<ChatMessage>, approved: set<PendingApproval>)
    requires forall m | m in ctx :: m.toolCalls == []
    ensures Paired(ctx, approved)
  {
    forall p: nat | p < |ctx| ensures PairedAt(ctx, p, approved) {
      assert ctx[p] in ctx;
    }
  }

  lemma AppendPlain(ctx: seq<ChatMessage>, m: ChatMessage, approved: set<PendingApproval>)
    requires Paired(ctx, approved) && m.role != Tool && m.toolCalls == []
    ensures Paired(ctx + [m], approved)
  {
    forall p: nat | p < |ctx + [m]| ensures PairedAt(ctx + [m], p, approved) {
      if p < |ctx| {
        PairedAtMonotone(ctx, p, [m], approved, approved);
      }
    }
  }

  lemma OpenBatch(ctx: seq<ChatMessage>, content: Option<string>, calls: seq<ToolCall>, approved: set<PendingApproval>)
    requires Paired(ctx, approved)
    ensures Open(ctx + [AssistantWithToolCalls(content, calls)], |ctx|, 0, approved)
  {
    var m := AssistantWithToolCalls(content, calls);
    forall q: nat | q < |ctx| ensures PairedAt(ctx + [m], q, approved) {
      PairedAtMonotone(ctx, q, [m], approved, approved);
    }
  }

  lemma PairedAtUnderTail(ctx: seq<ChatMessage>, p: nat, q: nat, m: ChatMessage, approved: set<PendingApproval>)
    requires q < p < |ctx| && ctx[p].role != Tool && PairedAt(ctx, q, approved)
    ensures PairedAt(ctx + [m], q, approved)
  {
    if ctx[q].toolCalls != [] {
      var k: nat :| Block(ctx, q, k, approved);
      var d := p - q - 1;
      assert d < k ==> IsResultFor(ctx[q + 1 + d], ctx[q].toolCalls[d]);
      assert d >= k;
      assert (ctx + [m])[..q + k] == ctx[..q + k];
      assert Block(ctx + [m], q, k, approved);
    }
  }

  lemma PushResult(
    ctx: seq<ChatMessage>, p: nat, k: nat, call: ToolCall, outcome: Outcome, approved: set<PendingApproval>)
    requires Open(ctx, p, k, approved) && k < |ctx[p].toolCalls| && ctx[p].toolCalls[k] == call
    ensures Open(ctx + [ResultMessage(call, outcome)], p, k + 1, approved)
  {
    var m := ResultMessage(call, outcome);
    forall q: nat | q < p ensures PairedAt(ctx + [m], q, approved) {
      PairedAtUnderTail(ctx, p, q, m, approved);
    }
  }

  /** A finished batch is paired, and so is one cut short by an approved pause. */
  lemma CloseBatch(ctx: seq<ChatMessage>, p: nat, k: nat, approved: set<PendingApproval>)
    requires Open(ctx, p, k, approved)
    requires ctx[p].toolCalls != [] ==> k > 0 && (k < |ctx[p].toolCalls| ==> PausedAt(ctx, p, k, approved))
    ensures Paired(ctx, approved)
  {
    assert ctx[p].toolCalls != [] ==> Block(ctx, p, k, approved);
    forall q: nat | q < |ctx| ensures PairedAt(ctx, q, approved) {
    }
  }

  /** Running the remaining calls of an open batch ends with a paired context or a saved open one. */
  lemma {:induction false} BatchKeepsPairing(
    thread: nat, ps: seq<Proposal>, auto: set<string>, ctx: seq<ChatMessage>, rid: nat, p: nat, k: nat,
      approved: set<PendingApproval>)
    requires Open(ctx, p, k, approved) && Calls(ps) == ctx[p].toolCalls[k..]
    ensures var out := RunBatch(thread, ps, auto, ctx, rid);
            if out.paused.Some? then AwaitsResult(out.paused.value, approved) else Paired(out.context, approved)
    decreases |ps|
  {
    if ps == [] {
      CloseBatch(ctx, p, k, approved);
    } else if MayRun(ps[0], auto) {
      assert ctx[p].toolCalls[k] == Calls(ps)[0];
      var next := ctx + [ResultMessage(ps[0].call, ps[0].outcome)];
      PushResult(ctx, p, k, ps[0].call, ps[0].outcome, approved);
      assert Calls(ps[1..]) == next[p].toolCalls[k + 1..];
      BatchKeepsPairing(thread, ps[1..], auto, next, rid, p, k + 1, approved);
    } else {
      assert ctx[p].toolCalls[k] == Calls(ps)[0];
    }
  }

  ghost predicate ShowsPaired(events: seq<Event>, approved: set<PendingApproval>) {
    forall i | 0 <= i < |events| :: events[i].ModelCall? ==> Paired(events[i].context, approved)
  }

  lemma {:induction false} BatchShowsNothing(
    thread: nat, ps: seq<Proposal>, auto: set<string>, ctx: seq<ChatMessage>, rid: nat)
    ensures forall e | e in RunBatch(thread, ps, auto, ctx, rid).events :: !e.ModelCall?
  {
    if ps != [] && MayRun(ps[0], auto) {
      BatchShowsNothing(thread, ps[1..], auto, ctx + [ResultMessage(ps[0].call, ps[0].outcome)], rid);
    }
  }

  lemma IterationKeepsPairing(
    thread: nat, reply: Reply, done: nat, toolsExecuted: bool, ctx: seq<ChatMessage>, auto: set<string>, rid: nat,
    approved: set<PendingApproval>)
    requires Paired(ctx, approved)
    ensures var out := Iterate(thread, reply, done, toolsExecuted, ctx, auto, rid);
            && ShowsPaired(out.events, approved)
            && (out.Continue? ==> Paired(out.context, approved))
            && (out.Stop? && out.result.NeedApproval? ==> AwaitsResult(out.result.pending, approved))
  {
    match reply
    case ModelFailed =>
    case ModelText(text, _) =>
      var answered := ctx + [AssistantMessage(text)];
      AppendPlain(ctx, AssistantMessage(text), approved);
      AppendPlain(answered, UserMessage(NUDGE_TEXT), approved);
      assert answered + [UserMessage(NUDGE_TEXT)] == ctx + [AssistantMessage(text), UserMessage(NUDGE_TEXT)];
    case ModelCalls(content, ps) =>
      var asked := ctx + [AssistantWithToolCalls(content, Calls(ps))];
      OpenBatch(ctx, content, Calls(ps), approved);
      assert asked[|ctx|].toolCalls[0..] == Calls(ps);
      BatchKeepsPairing(thread, ps, auto, asked, rid, |ctx|, 0, approved);
      BatchShowsNothing(thread, ps, auto, asked, rid);
  }

  /** Every context the loop shows the model is paired, and a paused loop saves an open batch. */
  lemma {:induction false} LoopKeepsPairing(
    thread: nat, script: seq<Reply>, done: nat, toolsExecuted: bool, ctx: seq<ChatMessage>,
    auto: set<string>, interrupted: set<nat>, rid: nat, approved: set<PendingApproval>)
    requires Paired(ctx, approved)
    ensures var out := RunLoop(thread, script, done, toolsExecuted, ctx, auto, interrupted, rid);
            && ShowsPaired(out.events, approved)
            && (out.result.NeedApproval? ==> AwaitsResult(out.result.pending, approved))
    decreases MAX_TOOL_ITERATIONS - done
  {
    if done < MAX_TOOL_ITERATIONS && done !in interrupted {
      IterationKeepsPairing(thread, ReplyAt(script, done), done, toolsExecuted, ctx, auto, rid, approved);
      var step := Iterate(thread, ReplyAt(script, done), done, toolsExecuted, ctx, auto, rid);
      if step.Continue? {
        var rest := RunLoop(thread, script, done + 1, step.toolsExecuted, step.context, auto, interrupted, rid);
        LoopKeepsPairing(thread, script, done + 1, step.toolsExecuted, step.context, auto, interrupted, rid, approved);
        assert RunLoop(thread, script, done, toolsExecuted, ctx, auto, interrupted, rid)
            == rest.(events := step.events + rest.events);
      }
    }
  }

  /** Resuming an approved request: its result closes the batch, cut short at the approved call. */
  lemma ResumeIsPaired(pending: PendingApproval, outcome: Outcome, approved: set<PendingApproval>)
    requires AwaitsResult(pending, approved) && pending in approved
    ensures Paired(pending.context + [ResultMessage(pending.call, outcome)], approved)
  {
    var ctx := pending.context;
    var p: nat, k: nat :| Open(ctx, p, k, approved) && k < |ctx[p].toolCalls| && ctx[p].toolCalls[k] == pending.call;
    var next := ctx + [ResultMessage(pending.call, outcome)];
    PushResult(ctx, p, k, pending.call, outcome, approved);
    assert next[..p + (k + 1)] == ctx;
    assert PausedAt(next, p, k + 1, approved);
    CloseBatch(next, p, k + 1, approved);
  }
}
