/** What holds after every run of a session: only approved calls execute, the model only ever sees
    paired contexts. */
module SessionSafety {
  import opened Wrappers
  import opened Sequences
  import opened Chat
  import opened Conversation
  import opened Undo
  import opened AgentLoop
  import opened Sessions
  import opened Approval
  import opened Pairing

  // ---------- invariant ----------

  predicate RequestIdsBelow(trace: seq<Event>, n: nat) {
    forall i | 0 <= i < |trace| :: trace[i].Request? ==> trace[i].pending.requestId < n
  }

  ghost predicate AllShownPaired(trace: seq<Event>) {
    forall i | 0 <= i < |trace| :: trace[i].ModelCall? ==> Paired(trace[i].context, ApprovedRequests(trace[..i]))
  }

  ghost predicate TraceOk(trace: seq<Event>, nextRequest: nat) {
    && RequestsDistinct(trace) && RequestIdsBelow(trace, nextRequest)
    && AllExecutionsAllowed(trace) && AllShownPaired(trace)
  }

  /** The request a thread is really waiting on. */
  function Waiting(s: Session, t: nat): Option<PendingApproval> {
    if t in s.slots && s.slots[t].thread.state == AwaitingApproval then s.slots[t].thread.pending else None
  }

  ghost predicate RequestsAgree(s: Session) {
    forall t: nat :: Outstanding(s.trace, t) == Waiting(s, t)
  }

  ghost predicate WaitingOk(s: Session) {
    forall t | t in s.slots && s.slots[t].thread.state == AwaitingApproval ::
      s.slots[t].thread.pending.Some? && AwaitsResult(s.slots[t].thread.pending.value, ApprovedRequests(s.trace))
  }

  ghost predicate Inv(s: Session) {
    && TraceOk(s.trace, s.nextRequest) && RequestsAgree(s) && WaitingOk(s)
    && s.autoApproved == AlwaysTools(s.trace)
  }

  // ---------- extending a good trace ----------

  lemma ShownMonotone(trace: seq<Event>, more: seq<Event>)
    requires AllShownPaired(trace)
    requires forall k | 0 <= k < |more| && more[k].ModelCall? ::
             Paired(more[k].context, ApprovedRequests(trace + more[..k]))
    ensures AllShownPaired(trace + more)
  {
    var longer := trace + more;
    forall i | 0 <= i < |longer| && longer[i].ModelCall?
      ensures Paired(longer[i].context, ApprovedRequests(longer[..i]))
    {
      if i < |trace| {
        assert longer[..i] == trace[..i];
      } else {
        assert longer[..i] == trace + more[..i - |trace|];
      }
    }
  }

  lemma {:induction false} ExtendQuiet(trace: seq<Event>, events: seq<Event>, n: nat)
    requires TraceOk(trace, n) && AllQuiet(events)
    requires LoopExecutions(events, AlwaysTools(trace)) && ShowsPaired(events, ApprovedRequests(trace))
    ensures TraceOk(trace + events, n)
  {
    LoopEventsAllowed(trace, events);
    forall k | 0 <= k < |events| && events[k].ModelCall?
      ensures Paired(events[k].context, ApprovedRequests(trace + events[..k]))
    {
      QuietChangesNothing(trace, events[..k], 0);
    }
    ShownMonotone(trace, events);
  }

  lemma ExtendOne(trace: seq<Event>, e: Event, n: nat)
    requires TraceOk(trace, n) && !Quiet(e) && (e.Request? ==> e.pending.requestId == n)
    ensures TraceOk(trace + [e], if e.Request? then n + 1 else n)
  {
    UnexecutedAllowed(trace, [e]);
    ShownMonotone(trace, [e]);
  }

  lemma AfterOne(trace: seq<Event>, e: Event, t: nat)
    ensures (trace + [e])[..|trace|] == trace
    ensures e.thread != t ==> Outstanding(trace + [e], t) == Outstanding(trace, t)
    ensures ApprovedRequests(trace) <= ApprovedRequests(trace + [e])
    ensures !e.Answer? ==> ApprovedRequests(trace + [e]) == ApprovedRequests(trace)
                           && AlwaysTools(trace + [e]) == AlwaysTools(trace)
  {
    assert (trace + [e])[..|trace + [e]| - 1] == trace;
  }

  lemma AskedOutstanding(trace: seq<Event>, thread: nat, p: PendingApproval, rest: seq<Event>, t: nat)
    requires AllQuiet(rest)
    ensures var longer := (trace + [Request(thread, p)]) + rest;
            && Outstanding(longer, t) == (if t == thread then Some(p) else Outstanding(trace, t))
            && ApprovedRequests(longer) == ApprovedRequests(trace) && AlwaysTools(longer) == AlwaysTools(trace)
  {
    AfterOne(trace, Request(thread, p), t);
    QuietChangesNothing(trace + [Request(thread, p)], rest, t);
  }

  lemma {:induction false} ExtendPaused(trace: seq<Event>, thread: nat, p: PendingApproval, n: nat)
    requires TraceOk(trace, n) && p.requestId == n
    ensures var longer := trace + FinalEvents(thread, NeedApproval(p));
            && TraceOk(longer, n + 1)
            && ApprovedRequests(longer) == ApprovedRequests(trace) && AlwaysTools(longer) == AlwaysTools(trace)
            && forall t :: Outstanding(longer, t) == if t == thread then Some(p) else Outstanding(trace, t)
  {
    var asked := trace + [Request(thread, p)];
    var rest := [Status(thread, Note), Status(thread, ApprovalNeeded(p.requestId, p.call.name))];
    assert asked + rest == trace + FinalEvents(thread, NeedApproval(p));
    ExtendOne(trace, Request(thread, p), n);
    ExtendQuiet(asked, rest, n + 1);
    forall t: nat ensures Outstanding(asked + rest, t) == if t == thread then Some(p) else Outstanding(trace, t) {
      AskedOutstanding(trace, thread, p, rest, t);
    }
    AskedOutstanding(trace, thread, p, rest, thread);
  }

  /** The events that close a loop: a request becomes the outstanding one, nothing else changes. */
  lemma {:induction false} ExtendFinal(trace: seq<Event>, thread: nat, result: LoopResult, n: nat)
    requires TraceOk(trace, n) && (result.NeedApproval? ==> result.pending.requestId == n)
    ensures var longer := trace + FinalEvents(thread, result);
            && TraceOk(longer, n + 1)
            && ApprovedRequests(longer) == ApprovedRequests(trace) && AlwaysTools(longer) == AlwaysTools(trace)
            && forall t :: Outstanding(longer, t)
                           == if t == thread && result.NeedApproval? then Some(result.pending)
                             else Outstanding(trace, t)
  {
    if result.NeedApproval? {
      ExtendPaused(trace, thread, result.pending, n);
    } else {
      var fin := FinalEvents(thread, result);
      ExtendQuiet(trace, fin, n);
      forall t ensures Outstanding(trace + fin, t) == Outstanding(trace, t) {
        QuietChangesNothing(trace, fin, t);
      }
      QuietChangesNothing(trace, fin, thread);
    }
  }

  /** Quiet events that only execute what is auto-approved and show paired contexts, then the closing ones. */
  lemma {:induction false} ExtendRun(trace: seq<Event>, thread: nat, out: LoopOut, n: nat, t: nat)
    requires TraceOk(trace, n) && AllQuiet(out.events)
    requires out.result.NeedApproval? ==> out.result.pending.requestId == n
    requires LoopExecutions(out.events, AlwaysTools(trace)) && ShowsPaired(out.events, ApprovedRequests(trace))
    ensures var longer := trace + (out.events + FinalEvents(thread, out.result));
            && TraceOk(longer, n + 1)
            && ApprovedRequests(longer) == ApprovedRequests(trace) && AlwaysTools(longer) == AlwaysTools(trace)
            && Outstanding(longer, t)
               == if t == thread && out.result.NeedApproval? then Some(out.result.pending) else Outstanding(trace, t)
  {
    ExtendQuiet(trace, out.events, n);
    ExtendFinal(trace + out.events, thread, out.result, n);
    Regroup(trace, out.events, FinalEvents(thread, out.result));
    QuietChangesNothing(trace, out.events, t);
  }

  /** A loop run from a paired context, followed by its closing events. */
  lemma {:induction false} ExtendLoop(
    trace: seq<Event>, thread: nat, script: seq<Reply>, resumed: bool, ctx: seq<ChatMessage>, n: nat)
    requires TraceOk(trace, n) && Paired(ctx, ApprovedRequests(trace))
    ensures var out := RunLoop(thread, script, 0, resumed, ctx, AlwaysTools(trace), {}, n);
            var longer := trace + (out.events + FinalEvents(thread, out.result));
            && TraceOk(longer, n + 1)
            && ApprovedRequests(longer) == ApprovedRequests(trace) && AlwaysTools(longer) == AlwaysTools(trace)
            && (out.result.NeedApproval? ==> AwaitsResult(out.result.pending, ApprovedRequests(trace)))
            && forall t :: Outstanding(longer, t)
                           == if t == thread && out.result.NeedApproval? then Some(out.result.pending)
                              else Outstanding(trace, t)
  {
    var auto := AlwaysTools(trace);
    LoopEvents(thread, script, 0, resumed, ctx, auto, {}, n);
    LoopKeepsPairing(thread, script, 0, resumed, ctx, auto, {}, n, ApprovedRequests(trace));
    var out := RunLoop(thread, script, 0, resumed, ctx, auto, {}, n);
    ExtendRun(trace, thread, out, n, thread);
    forall t: nat ensures Outstanding(trace + (out.events + FinalEvents(thread, out.result)), t)
                          == if t == thread && out.result.NeedApproval? then Some(out.result.pending)
                             else Outstanding(trace, t)
    {
      ExtendRun(trace, thread, out, n, t);
    }
  }

  lemma WaitingMonotone(s: Session, approved: set<PendingApproval>, t: nat)
    requires WaitingOk(s) && ApprovedRequests(s.trace) <= approved
    requires t in s.slots && s.slots[t].thread.state == AwaitingApproval
    ensures AwaitsResult(s.slots[t].thread.pending.value, approved)
  {
    AwaitsMonotone(s.slots[t].thread.pending.value, ApprovedRequests(s.trace), approved);
  }

  // ---------- every step keeps the invariant ----------

  lemma RegroupFive<T>(a: seq<T>, b: seq<T>, c: seq<T>, d: seq<T>, e: seq<T>)
    ensures a + (b + c + d + e) == (a + b + c) + (d + e)
    ensures a + (c + d + e) == (a + c) + (d + e)
  {
  }

  lemma {:induction false} MessagesArePlain(turns: seq<Turn>)
    ensures forall m | m in Messages(turns) :: m.toolCalls == []
  {
    if turns != [] {
      MessagesArePlain(turns[..|turns| - 1]);
    }
  }

  /** The common end of both handlers that run the loop: `trace` is the trace up to the loop and `t0` the
      thread it runs in; every other thread is as in `s`. */
  lemma {:induction false} LoopKeepsInv(
    s: Session, trace: seq<Event>, id: nat, t0: Thread, h: History,
    script: seq<Reply>, resumed: bool, ctx: seq<ChatMessage>, out: LoopOut, next: Session)
    requires Inv(s) && TraceOk(trace, s.nextRequest) && Paired(ctx, ApprovedRequests(trace))
    requires ApprovedRequests(s.trace) <= ApprovedRequests(trace)
    requires forall t: nat :: Outstanding(trace, t) == if t == id then None else Outstanding(s.trace, t)
    requires out == RunLoop(id, script, 0, resumed, ctx, AlwaysTools(trace), {}, s.nextRequest)
    requires next == Session(AlwaysTools(trace), s.slots[id := Slot(Finalized(t0, out.result), h)],
                             s.nextRequest + 1, next.nextCheckpoint, trace + (out.events + FinalEvents(id, out.result)))
    ensures Inv(next)
  {
    ExtendLoop(trace, id, script, resumed, ctx, s.nextRequest);
    forall t: nat ensures Outstanding(next.trace, t) == Waiting(next, t) {
      assert Outstanding(s.trace, t) == Waiting(s, t);
    }
    forall t | t in next.slots && next.slots[t].thread.state == AwaitingApproval
      ensures next.slots[t].thread.pending.Some?
      ensures AwaitsResult(next.slots[t].thread.pending.value, ApprovedRequests(next.trace))
    {
      if t != id {
        WaitingMonotone(s, ApprovedRequests(trace), t);
      }
    }
  }

  lemma PromptIsPaired(turns: seq<Turn>, prompt: Option<string>, approved: set<PendingApproval>)
    ensures Paired(WithSystemPrompt(Messages(turns), prompt), approved)
  {
    MessagesArePlain(turns);
    PlainIsPaired(WithSystemPrompt(Messages(turns), prompt), approved);
  }

  lemma StartStatus(s: Session, id: nat)
    requires Inv(s) && Waiting(s, id).None?
    ensures var trace := s.trace + [Status(id, Thinking)];
            && TraceOk(trace, s.nextRequest)
            && ApprovedRequests(trace) == ApprovedRequests(s.trace) && AlwaysTools(trace) == s.autoApproved
            && forall t: nat :: Outstanding(trace, t) == if t == id then None else Outstanding(s.trace, t)
  {
    var think := [Status(id, Thinking)];
    ExtendQuiet(s.trace, think, s.nextRequest);
    QuietChangesNothing(s.trace, think, id);
    assert Outstanding(s.trace, id) == Waiting(s, id);
    forall t: nat ensures Outstanding(s.trace + think, t) == if t == id then None else Outstanding(s.trace, t) {
      QuietChangesNothing(s.trace, think, t);
    }
  }

  lemma {:induction false} UserInputKeepsInv(s: Session, i: Input)
    requires Inv(s) && i.UserInput?
    ensures Inv(UserInputStep(s, i))
  {
    if TurnStarts(s, i) {
      var Slot(t0, h) := TurnStarted(s, i);
      var out := UserInputLoop(s, i);
      var ctx := WithSystemPrompt(Messages(t0.turns), i.systemPrompt);
      var trace := s.trace + [Status(i.thread, Thinking)];
      StartStatus(s, i.thread);
      PromptIsPaired(t0.turns, i.systemPrompt, ApprovedRequests(trace));
      RegroupFive(s.trace, [], [Status(i.thread, Thinking)], out.events, FinalEvents(i.thread, out.result));
      LoopKeepsInv(s, trace, i.thread, t0, h, i.script, false, ctx, out, UserInputStep(s, i));
    }
  }

  /** Executing the call of an answered request is what the answer authorizes. */
  lemma {:induction false} ExtendApprovedExecution(
    trace: seq<Event>, answer: Event, p: PendingApproval, outcome: Outcome, n: nat)
    requires TraceOk(trace, n) && answer.Answer? && answer.approved
    requires Outstanding(trace, answer.thread) == Some(p) && Names(answer, p)
    ensures TraceOk(trace + [answer] + Execution(answer.thread, p.call, true, true, outcome), n)
  {
    var asked := trace + [answer];
    var run := Execution(answer.thread, p.call, true, true, outcome);
    ExtendOne(trace, answer, n);
    var at := |asked| + 1;
    var longer := asked + run;
    assert longer[at] == run[1] && longer[|trace|] == answer && longer[..|trace|] == trace;
    assert Authorizes(longer, |trace|, at);
    forall j: nat | j < |longer| ensures ExecutionAllowed(longer, j) {
      if j < |asked| {
        ExecutionAllowedMonotone(asked, run, j);
      } else {
        assert longer[j] == run[j - |asked|];
      }
    }
    ShownMonotone(asked, run);
  }

  lemma {:induction false} AnsweredAndRun(s: Session, i: Input)
    requires Inv(s) && i.ApprovalAnswer? && AnswerMatches(s, i) && i.approved
    ensures var p := s.slots[i.thread].thread.pending.value;
            var answer := Answer(i.thread, i.requestId, true, i.always);
            var trace := s.trace + [answer] + Execution(i.thread, p.call, true, true, i.outcome);
            && TraceOk(trace, s.nextRequest)
            && ApprovedRequests(trace) == ApprovedRequests(s.trace) + {p}
            && AlwaysTools(trace) == AutoApprovedAfter(s, i)
            && forall t: nat :: Outstanding(trace, t) == if t == i.thread then None else Outstanding(s.trace, t)
  {
    var p := s.slots[i.thread].thread.pending.value;
    var answer := Answer(i.thread, i.requestId, true, i.always);
    var run := Execution(i.thread, p.call, true, true, i.outcome);
    var asked := s.trace + [answer];
    assert Outstanding(s.trace, i.thread) == Waiting(s, i.thread) == Some(p);
    ExtendApprovedExecution(s.trace, answer, p, i.outcome, s.nextRequest);
    AfterOne(s.trace, answer, i.thread);
    QuietChangesNothing(asked, run, i.thread);
    forall t: nat ensures Outstanding(asked + run, t) == if t == i.thread then None else Outstanding(s.trace, t) {
      AfterOne(s.trace, answer, t);
      QuietChangesNothing(asked, run, t);
    }
  }

  lemma {:induction false} ApprovedAnswerKeepsInv(s: Session, i: Input)
    requires Inv(s) && i.ApprovalAnswer? && AnswerMatches(s, i) && i.approved
    ensures Inv(ApprovalStep(s, i))
  {
    var Slot(t0, h) := s.slots[i.thread];
    var p := t0.pending.value;
    var answer := Answer(i.thread, i.requestId, true, i.always);
    var run := Execution(i.thread, p.call, true, true, i.outcome);
    var trace := s.trace + [answer] + run;
    var ctx, out := p.context + [ResultMessage(p.call, i.outcome)], ResumedLoop(s, i);
    AnsweredAndRun(s, i);
    assert Paired(ctx, ApprovedRequests(trace)) by {
      WaitingMonotone(s, ApprovedRequests(trace), i.thread);
      ResumeIsPaired(p, i.outcome, ApprovedRequests(trace));
    }
    RegroupFive(s.trace, [answer], run, out.events, FinalEvents(i.thread, out.result));
    LoopKeepsInv(s, trace, i.thread, t0.(state := Processing, pending := None), h, i.script, true, ctx, out,
      ApprovalStep(s, i));
  }

  lemma {:induction false} OtherAnswerKeepsInv(s: Session, i: Input)
    requires Inv(s) && i.ApprovalAnswer? && !(AnswerMatches(s, i) && i.approved)
    ensures Inv(ApprovalStep(s, i))
  {
    var answer := Answer(i.thread, i.requestId, i.approved, i.always);
    var note := if AnswerMatches(s, i) then [Status(i.thread, Note)] else [];
    var next := ApprovalStep(s, i);
    var asked := s.trace + [answer];
    ExtendOne(s.trace, answer, s.nextRequest);
    ExtendQuiet(asked, note, s.nextRequest);
    assert next.trace == asked + note;
    AfterOne(s.trace, answer, i.thread);
    QuietChangesNothing(asked, note, i.thread);
    assert Outstanding(s.trace, i.thread) == Waiting(s, i.thread);
    assert ApprovedRequests(next.trace) == ApprovedRequests(s.trace) && AlwaysTools(next.trace) == AlwaysTools(s.trace);
    forall t: nat ensures Outstanding(next.trace, t) == Waiting(next, t) {
      assert Outstanding(s.trace, t) == Waiting(s, t);
      AfterOne(s.trace, answer, t);
      QuietChangesNothing(asked, note, t);
    }
  }

  /** Interrupting, clearing and going back: the thread stops waiting and so does the trace. */
  lemma {:induction false} StopKeepsInv(s: Session, next: Session, e: Event)
    requires Inv(s) && (e.Interrupt? || e.Clear? || e.Restore?)
    requires next.trace == s.trace + [e] && next.nextRequest == s.nextRequest && next.autoApproved == s.autoApproved
    requires next.slots.Keys == s.slots.Keys
    requires forall t | t in s.slots && t != e.thread :: next.slots[t] == s.slots[t]
    requires e.thread in s.slots ==> next.slots[e.thread].thread.state != AwaitingApproval
    ensures Inv(next)
  {
    ExtendOne(s.trace, e, s.nextRequest);
    AfterOne(s.trace, e, e.thread);
    forall t: nat ensures Outstanding(next.trace, t) == Waiting(next, t) {
      assert Outstanding(s.trace, t) == Waiting(s, t);
      AfterOne(s.trace, e, t);
    }
  }

  /** Steps that leave the trace alone keep every thread's state and request. */
  lemma SilentKeepsInv(s: Session, next: Session)
    requires Inv(s) && next.trace == s.trace && next.nextRequest == s.nextRequest && next.autoApproved == s.autoApproved
    requires forall t: nat :: Waiting(next, t) == Waiting(s, t)
    requires forall t | t in next.slots && next.slots[t].thread.state == AwaitingApproval :: Waiting(s, t).Some?
    ensures Inv(next)
  {
    forall t | t in next.slots && next.slots[t].thread.state == AwaitingApproval
      ensures AwaitsResult(next.slots[t].thread.pending.value, ApprovedRequests(next.trace))
    {
      assert Waiting(next, t) == Waiting(s, t);
    }
    forall t: nat ensures Outstanding(next.trace, t) == Waiting(next, t) {
      assert Outstanding(s.trace, t) == Waiting(s, t);
    }
  }

  lemma {:induction false} AnswerKeepsInv(s: Session, i: Input)
    requires Inv(s) && i.ApprovalAnswer?
    ensures Inv(ApprovalStep(s, i))
  {
    if AnswerMatches(s, i) && i.approved {
      ApprovedAnswerKeepsInv(s, i);
    } else {
      OtherAnswerKeepsInv(s, i);
    }
  }

  lemma {:induction false} StoppingKeepsInv(s: Session, id: nat)
    requires Inv(s)
    ensures Inv(InterruptStep(s, id)) && Inv(ClearStep(s, id))
  {
    StopKeepsInv(s, InterruptStep(s, id), Interrupt(id));
    StopKeepsInv(s, ClearStep(s, id), Clear(id));
  }

  lemma {:induction false} UndoKeepsInv(s: Session, id: nat)
    requires Inv(s)
    ensures Inv(UndoSession(s, id)) && Inv(RedoSession(s, id))
  {
    if UndoSession(s, id) != s {
      StopKeepsInv(s, UndoSession(s, id), Restore(id));
    }
    if RedoSession(s, id) != s {
      StopKeepsInv(s, RedoSession(s, id), Restore(id));
    }
  }

  lemma {:induction false} ResumeKeepsInv(s: Session, id: nat, checkpointId: nat)
    requires Inv(s)
    ensures Inv(ResumeSession(s, id, checkpointId))
  {
    if ResumeSession(s, id, checkpointId) != s {
      StopKeepsInv(s, ResumeSession(s, id, checkpointId), Restore(id));
    }
  }

  lemma {:induction false} StepKeepsInv(s: Session, i: Input)
    requires Inv(s)
    ensures Inv(Step(s, i))
  {
    match i
    case UserInput(_, _, _, _, _, _) => UserInputKeepsInv(s, i);
    case ApprovalAnswer(_, _, _, _, _, _) => AnswerKeepsInv(s, i);
    case InterruptTurn(id) => StoppingKeepsInv(s, id);
    case ClearThread(id) => StoppingKeepsInv(s, id);
    case UndoTurn(id) => UndoKeepsInv(s, id);
    case RedoTurn(id) => UndoKeepsInv(s, id);
    case ResumeFrom(id, c) => ResumeKeepsInv(s, id, c);
    case CompactThread(_, _) => SilentKeepsInv(s, Step(s, i));
    case OpenThread(_, _) => SilentKeepsInv(s, Step(s, i));
  }

  lemma {:induction false} RunKeepsInv(inputs: seq<Input>)
    ensures Inv(Run(NEW_SESSION, inputs))
  {
    if inputs != [] {
      RunKeepsInv(inputs[..|inputs| - 1]);
      StepKeepsInv(Run(NEW_SESSION, inputs[..|inputs| - 1]), inputs[|inputs| - 1]);
    }
  }

  // ---------- main results ----------

  /** Over every run, each gated call that executes is for a tool the user answered "always" for, or is
      exactly a request the user approved; request ids never repeat. */
  lemma {:induction false} OnlyApprovedCallsExecute(inputs: seq<Input>)
    ensures var trace := Run(NEW_SESSION, inputs).trace;
            AllExecutionsAllowed(trace) && RequestsDistinct(trace)
  {
    RunKeepsInv(inputs);
  }

  /** Over every run, every context shown to the model is paired, approved pauses excepted. */
  lemma {:induction false} ModelSeesPairedContexts(inputs: seq<Input>)
    ensures AllShownPaired(Run(NEW_SESSION, inputs).trace)
  {
    RunKeepsInv(inputs);
  }

  /** In every run a request backs at most one execution. */
  lemma {:induction false} EachRequestExecutesOnce(inputs: seq<Input>, j1: nat, i1: nat, j2: nat, i2: nat)
    requires var trace := Run(NEW_SESSION, inputs).trace;
             && Authorizes(trace, j1, i1) && Authorizes(trace, j2, i2)
             && Authority(trace, j1).requestId == Authority(trace, j2).requestId
    ensures i1 == i2
  {
    RunKeepsInv(inputs);
    RequestExecutesAtMostOnce(Run(NEW_SESSION, inputs).trace, j1, i1, j2, i2);
  }

  /** In every run a request that was interrupted, cleared, undone or rejected backs none. */
  lemma {:induction false} RetiredRequestsStayUnexecuted(inputs: seq<Input>, m: nat, thread: nat, j: nat, i: nat)
    requires var trace := Run(NEW_SESSION, inputs).trace;
             && m < |trace| && trace[m].thread == thread && Outstanding(trace[..m], thread).Some?
             && (|| trace[m].Interrupt? || trace[m].Clear? || trace[m].Restore?
                 || (Names(trace[m], Outstanding(trace[..m], thread).value) && !trace[m].approved))
             && Authorizes(trace, j, i)
    ensures var trace := Run(NEW_SESSION, inputs).trace;
            Authority(trace, j).requestId != Outstanding(trace[..m], thread).value.requestId
  {
    RunKeepsInv(inputs);
    RetiredRequestNeverExecutes(Run(NEW_SESSION, inputs).trace, m, thread, j, i);
  }
}
