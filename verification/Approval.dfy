/** What an observable trace says about approvals, without looking at the session's own state. */
module Approval {
  import opened Wrappers
  import opened Chat
  import opened AgentLoop

  /** The request a thread is waiting on after `trace`: the last one raised, unless the user has since
      answered it, interrupted or cleared the thread, or gone back to an earlier state. */
  function Outstanding(trace: seq<Event>, thread: nat): Option<PendingApproval> {
    if trace == [] then None
    else
      var before := Outstanding(trace[..|trace| - 1], thread);
      var e := trace[|trace| - 1];
      if e.thread != thread then before
      else if e.Request? then Some(e.pending)
      else if e.Interrupt? || e.Clear? || e.Restore? then None
      else if e.Answer? && before.Some? && Names(e, before.value) then None
      else before
  }

  /** An answer speaks about a request when it carries that request's id, or no id at all. */
  predicate Names(e: Event, p: PendingApproval) {
    e.Answer? && (e.requestId.None? || e.requestId.value == p.requestId)
  }

  /** The requests approved so far. */
  function ApprovedRequests(trace: seq<Event>): set<PendingApproval> {
    if trace == [] then {}
    else
      var before := trace[..|trace| - 1];
      var e := trace[|trace| - 1];
      var asked := Outstanding(before, e.thread);
      ApprovedRequests(before) + (if e.Answer? && e.approved && asked.Some? && Names(e, asked.value)
        then {asked.value} else {})
  }

  /** The tools the user has answered "approve always" for so far. */
  function AlwaysTools(trace: seq<Event>): set<string> {
    if trace == [] then {}
    else
      var before := trace[..|trace| - 1];
      var e := trace[|trace| - 1];
      var asked := Outstanding(before, e.thread);
      AlwaysTools(before)
      + (if e.Answer? && e.approved && e.always && asked.Some? && Names(e, asked.value) then {asked.value.call.name}
        else {})
  }

  /** Event `j` is the user's approval of exactly the call executed at `i`, with nothing but status
      updates in between. */
  ghost predicate Authorizes(trace: seq<Event>, j: nat, i: nat) {
    && j < i < |trace| && trace[i].Execute?
    && trace[j].Answer? && trace[j].approved && trace[j].thread == trace[i].thread
    && (var asked := Outstanding(trace[..j], trace[j].thread);
        asked.Some? && Names(trace[j], asked.value) && asked.value.call == trace[i].call)
    && forall k | j < k < i :: trace[k].Status?
  }

  function Authority(trace: seq<Event>, j: nat): PendingApproval
    requires j < |trace| && Outstanding(trace[..j], trace[j].thread).Some?
  {
    Outstanding(trace[..j], trace[j].thread).value
  }

  /** A gated execution is backed by an earlier "always" for its tool (destructive shell commands
      excepted) or by the user's approval of exactly this call. */
  ghost predicate ExecutionAllowed(trace: seq<Event>, i: nat)
    requires i < |trace|
  {
    trace[i].Execute? && trace[i].gated ==>
      || (trace[i].call.name in AlwaysTools(trace[..i]) && !trace[i].explicitOnly)
      || exists j: nat :: Authorizes(trace, j, i)
  }

  ghost predicate AllExecutionsAllowed(trace: seq<Event>) {
    forall i: nat | i < |trace| :: ExecutionAllowed(trace, i)
  }

  predicate RequestsDistinct(trace: seq<Event>) {
    forall i, j | 0 <= i < j < |trace| && trace[i].Request? && trace[j].Request? ::
      trace[i].pending.requestId != trace[j].pending.requestId
  }

  // ---------- consequences for any trace with distinct request ids ----------

  /** An outstanding request was raised, and has been outstanding ever since. */
  lemma {:induction false} OutstandingSource(trace: seq<Event>, thread: nat) returns (k: nat)
    requires Outstanding(trace, thread).Some?
    ensures k < |trace| && trace[k] == Request(thread, Outstanding(trace, thread).value)
    ensures forall m | k < m <= |trace| :: Outstanding(trace[..m], thread) == Outstanding(trace, thread)
  {
    var last := |trace| - 1;
    assert trace[..|trace|] == trace;
    if trace[last].Request? && trace[last].thread == thread {
      k := last;
    } else {
      k := OutstandingSource(trace[..last], thread);
      forall m | k < m <= |trace|
        ensures Outstanding(trace[..m], thread) == Outstanding(trace, thread)
      {
        if m < |trace| {
          assert trace[..last][..m] == trace[..m];
        }
      }
    }
  }

  /** Once a request stops being outstanding it never is again, in any thread. */
  lemma RetiredForGood(trace: seq<Event>, m: nat, thread: nat, j: nat, other: nat)
    requires RequestsDistinct(trace)
    requires m < j <= |trace|
    requires Outstanding(trace[..m], thread).Some? && Outstanding(trace[..m + 1], thread).None?
    requires Outstanding(trace[..j], other).Some?
    ensures Outstanding(trace[..j], other).value.requestId != Outstanding(trace[..m], thread).value.requestId
  {
    var a := OutstandingSource(trace[..m], thread);
    var b := OutstandingSource(trace[..j], other);
    assert trace[a] == trace[..m][a] && trace[b] == trace[..j][b];
    assert trace[..j][..m + 1] == trace[..m + 1];
    assert a != b;
  }

  lemma AnswerRetires(trace: seq<Event>, j: nat)
    requires j < |trace| && trace[j].Answer?
    requires Outstanding(trace[..j], trace[j].thread).Some?
    requires Names(trace[j], Outstanding(trace[..j], trace[j].thread).value)
    ensures Outstanding(trace[..j + 1], trace[j].thread).None?
  {
    assert trace[..j + 1][..j] == trace[..j];
  }

  /** One request backs at most one execution. */
  lemma RequestExecutesAtMostOnce(trace: seq<Event>, j1: nat, i1: nat, j2: nat, i2: nat)
    requires RequestsDistinct(trace)
    requires Authorizes(trace, j1, i1) && Authorizes(trace, j2, i2)
    requires Authority(trace, j1).requestId == Authority(trace, j2).requestId
    ensures i1 == i2
  {
    AnswerRetires(trace, j1);
    AnswerRetires(trace, j2);
    if j1 < j2 {
      RetiredForGood(trace, j1, trace[j1].thread, j2, trace[j2].thread);
    } else if j2 < j1 {
      RetiredForGood(trace, j2, trace[j2].thread, j1, trace[j1].thread);
    }
    assert !trace[i1].Status? && !trace[i2].Status?;
  }

  /** A request that was interrupted, cleared, undone or rejected backs no execution, before or after. */
  lemma RetiredRequestNeverExecutes(trace: seq<Event>, m: nat, thread: nat, j: nat, i: nat)
    requires RequestsDistinct(trace)
    requires m < |trace| && trace[m].thread == thread && Outstanding(trace[..m], thread).Some?
    requires || trace[m].Interrupt? || trace[m].Clear? || trace[m].Restore?
             || (Names(trace[m], Outstanding(trace[..m], thread).value) && !trace[m].approved)
    requires Authorizes(trace, j, i)
    ensures Authority(trace, j).requestId != Outstanding(trace[..m], thread).value.requestId
  {
    assert trace[..m + 1][..m] == trace[..m];
    if m < j {
      RetiredForGood(trace, m, thread, j, trace[j].thread);
    } else if j < m {
      AnswerRetires(trace, j);
      RetiredForGood(trace, j, trace[j].thread, m, thread);
    }
  }

  // ---------- extending a trace ----------

  predicate Quiet(e: Event) {
    e.ModelCall? || e.Nudge? || e.Status? || e.Execute?
  }

  predicate AllQuiet(events: seq<Event>) {
    forall i | 0 <= i < |events| :: Quiet(events[i])
  }

  lemma {:induction false} QuietChangesNothing(trace: seq<Event>, events: seq<Event>, thread: nat)
    requires AllQuiet(events)
    ensures Outstanding(trace + events, thread) == Outstanding(trace, thread)
    ensures ApprovedRequests(trace + events) == ApprovedRequests(trace)
    ensures AlwaysTools(trace + events) == AlwaysTools(trace)
  {
    if events == [] {
      assert trace + events == trace;
    } else {
      var n := |events| - 1;
      assert (trace + events)[..|trace + events| - 1] == trace + events[..n];
      QuietChangesNothing(trace, events[..n], thread);
    }
  }

  lemma ExecutionAllowedMonotone(trace: seq<Event>, more: seq<Event>, i: nat)
    requires i < |trace| && ExecutionAllowed(trace, i)
    ensures ExecutionAllowed(trace + more, i)
  {
    var longer := trace + more;
    assert longer[..i] == trace[..i];
    if j: nat :| Authorizes(trace, j, i) {
      assert longer[..j] == trace[..j];
      assert Authorizes(longer, j, i);
    }
  }

  /** Executions inside a loop are backed by the auto-approved set alone. */
  predicate LoopExecutions(events: seq<Event>, auto: set<string>) {
    forall i | 0 <= i < |events| ::
      events[i].Execute? && events[i].gated ==> events[i].call.name in auto && !events[i].explicitOnly
  }

  lemma LoopEventsAllowed(trace: seq<Event>, events: seq<Event>)
    requires AllExecutionsAllowed(trace) && AllQuiet(events) && LoopExecutions(events, AlwaysTools(trace))
    ensures AllExecutionsAllowed(trace + events)
  {
    forall i: nat | i < |trace + events|
      ensures ExecutionAllowed(trace + events, i)
    {
      if i < |trace| {
        ExecutionAllowedMonotone(trace, events, i);
      } else {
        var k := i - |trace|;
        assert (trace + events)[..i] == trace + events[..k];
        QuietChangesNothing(trace, events[..k], 0);
      }
    }
  }

  lemma UnexecutedAllowed(trace: seq<Event>, events: seq<Event>)
    requires AllExecutionsAllowed(trace) && forall i | 0 <= i < |events| :: !events[i].Execute?
    ensures AllExecutionsAllowed(trace + events)
  {
    forall i: nat | i < |trace + events|
      ensures ExecutionAllowed(trace + events, i)
    {
      if i < |trace| {
        ExecutionAllowedMonotone(trace, events, i);
      }
    }
  }

  /** The loop is quiet and runs only what the auto-approved set allows. */
  lemma {:induction false} BatchEvents(
    thread: nat, ps: seq<Proposal>, auto: set<string>, context: seq<ChatMessage>, rid: nat)
    ensures var out := RunBatch(thread, ps, auto, context, rid);
            && AllQuiet(out.events) && LoopExecutions(out.events, auto)
            && (out.paused.Some? ==> out.paused.value.requestId == rid)
  {
    if ps != [] && MayRun(ps[0], auto) {
      BatchEvents(thread, ps[1..], auto, context + [ResultMessage(ps[0].call, ps[0].outcome)], rid);
    }
  }

  lemma IterationEvents(
    thread: nat, reply: Reply, done: nat, toolsExecuted: bool, context: seq<ChatMessage>, auto: set<string>, rid: nat)
    ensures var out := Iterate(thread, reply, done, toolsExecuted, context, auto, rid);
            && AllQuiet(out.events) && LoopExecutions(out.events, auto)
            && (out.Stop? && out.result.NeedApproval? ==> out.result.pending.requestId == rid)
  {
    if reply.ModelCalls? {
      BatchEvents(thread, reply.proposals, auto, context + [AssistantWithToolCalls(reply.content,
        Calls(reply.proposals))], rid);
    }
  }

  lemma {:induction false} LoopEvents(
    thread: nat, script: seq<Reply>, done: nat, toolsExecuted: bool, context: seq<ChatMessage>,
    auto: set<string>, interrupted: set<nat>, rid: nat)
    ensures var out := RunLoop(thread, script, done, toolsExecuted, context, auto, interrupted, rid);
            && AllQuiet(out.events) && LoopExecutions(out.events, auto)
            && (out.result.NeedApproval? ==> out.result.pending.requestId == rid)
    decreases MAX_TOOL_ITERATIONS - done
  {
    if done < MAX_TOOL_ITERATIONS && done !in interrupted {
      IterationEvents(thread, ReplyAt(script, done), done, toolsExecuted, context, auto, rid);
      var step := Iterate(thread, ReplyAt(script, done), done, toolsExecuted, context, auto, rid);
      if step.Continue? {
        var rest := RunLoop(thread, script, done + 1, step.toolsExecuted, step.context, auto, interrupted, rid);
        LoopEvents(thread, script, done + 1, step.toolsExecuted, step.context, auto, interrupted, rid);
        assert RunLoop(thread, script, done, toolsExecuted, context, auto, interrupted, rid)
            == rest.(events := step.events + rest.events);
      }
    }
  }
}
