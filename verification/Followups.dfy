/** Follow-up texts: what an agent is given is what was sent, and what was sent is given to the next agent
    for the todo (src/agent/agent_queue.rs). */
module Followups {
  import opened Wrappers
  import opened Dispatch

  /** The todo and text of every follow-up sent in a run, in order. */
  function Sent(steps: seq<Step>): seq<(nat, string)> {
    if steps == [] then []
    else
      var last := steps[|steps| - 1];
      Sent(steps[..|steps| - 1])
      + if last.Caller? && last.caller.InsertFollowup? then [(last.caller.id, last.caller.text)] else []
  }

  /** The follow-up numbered `f.id` was sent for this todo with this text. */
  predicate WasSent(f: Followup, sent: seq<(nat, string)>) {
    f.id < |sent| && sent[f.id] == (f.todo, f.text)
  }

  /** Every follow-up in the map, in the dispatch loop's hand or given to an agent is one that was sent. */
  predicate TextsOk(s: State, sent: seq<(nat, string)>) {
    && s.desk.nextFollowup == |sent|
    && (forall id | id in s.desk.followups :: WasSent(s.desk.followups[id], sent))
    && (s.hand.Launching? && s.hand.followup.Some? ==> WasSent(s.hand.followup.value, sent))
    && (forall d | d in s.dispatched && d.followup.Some? :: WasSent(d.followup.value, sent))
  }

  lemma {:induction false} LoopKeepsTexts(s: State, step: LoopStep, sent: seq<(nat, string)>)
    requires TextsOk(s, sent)
    ensures TextsOk(LoopNext(s, step), sent)
  {
  }

  lemma {:induction false} CallerKeepsTexts(s: State, step: CallerStep, sent: seq<(nat, string)>)
    requires TextsOk(s, sent)
    ensures TextsOk(Next(s, Caller(step)), sent + if step.InsertFollowup? then [(step.id, step.text)] else [])
  {
  }

  lemma {:induction false} StepKeepsTexts(s: State, steps: seq<Step>, step: Step)
    requires TextsOk(s, Sent(steps))
    ensures TextsOk(Next(s, step), Sent(steps + [step]))
  {
    assert (steps + [step])[..|steps|] == steps;
    match step
    case Caller(c) => CallerKeepsTexts(s, c, Sent(steps));
    case Loop(l) => LoopKeepsTexts(s, l, Sent(steps));
    case Pass(p) => PassLeavesFollowups(s, p);
    case PoolMove(_) =>
  }

  /** In every interleaving, a follow-up an agent is given has the text of the step that sent it, which was
      sent for the agent's own todo. */
  lemma {:induction false} FollowupsCarryTheirText(max: nat, steps: seq<Step>)
    ensures var s := Run(Init(max), steps);
            && TextsOk(s, Sent(steps))
            && forall i | 0 <= i < |s.dispatched| && s.dispatched[i].followup.Some? ::
                 var f := s.dispatched[i].followup.value;
                 f.id < |Sent(steps)| && Sent(steps)[f.id] == (s.dispatched[i].todo, f.text)
  {
    if steps != [] {
      var front, step := steps[..|steps| - 1], steps[|steps| - 1];
      FollowupsCarryTheirText(max, front);
      StepKeepsTexts(Run(Init(max), front), front, step);
      assert front + [step] == steps;
    }
    FollowupsReachOneAgent(max, steps);
    var s := Run(Init(max), steps);
    assert forall i | 0 <= i < |s.dispatched| :: s.dispatched[i] in s.dispatched;
  }

  // ---------- delivery ----------

  /** The first agent for a todo among some dispatches. */
  function FirstFor(ds: seq<Dispatched>, id: nat): Option<Dispatched> {
    if ds == [] then None
    else
      var before := FirstFor(ds[..|ds| - 1], id);
      if before.Some? then before else if ds[|ds| - 1].todo == id then Some(ds[|ds| - 1]) else None
  }

  predicate IsLaunching(s: State, id: nat) {
    s.hand.Launching? && s.hand.todo == id
  }

  /** Since `from` dispatches ago the todo's next agent got `followup`, or is about to: it is in the launching
      hand, or, if `stored`, still in the map. */
  predicate Underway(s: State, from: nat, id: nat, followup: Option<Followup>, stored: bool) {
    && from <= |s.dispatched|
    && var first := FirstFor(s.dispatched[from..], id);
       if first.Some? then first.value.followup == followup
       else if IsLaunching(s, id) then s.hand.followup == followup
       else stored && followup.Some? && id in s.desk.followups && s.desk.followups[id] == followup.value
  }

  /** Nothing replaces the todo's follow-up, and no spawn fails. */
  predicate LeavesFollowup(step: Step, id: nat) {
    && !(step.Caller? && step.caller.InsertFollowup? && step.caller.id == id)
    && step != Loop(SpawnFails)
  }

  lemma FirstForSnoc(ds: seq<Dispatched>, d: Dispatched, from: nat, id: nat)
    requires from <= |ds|
    ensures var before := FirstFor(ds[from..], id);
            FirstFor((ds + [d])[from..], id)
            == if before.Some? then before else if d.todo == id then Some(d) else None
  {
    assert (ds + [d])[from..] == ds[from..] + [d];
    assert (ds[from..] + [d])[..|ds[from..]|] == ds[from..];
  }

  lemma {:induction false} SpawnKeepsUnderway(s: State, from: nat, id: nat, followup: Option<Followup>, stored: bool)
    requires Underway(s, from, id, followup, stored) && s.hand.Launching?
    ensures Underway(LoopNext(s, Spawn), from, id, followup, stored)
  {
    FirstForSnoc(s.dispatched, Dispatched(s.pool.nextAgent, s.hand.todo, s.hand.followup), from, id);
  }

  lemma {:induction false} StepKeepsUnderway(
    s: State, step: Step, from: nat, id: nat, followup: Option<Followup>, stored: bool)
    requires Underway(s, from, id, followup, stored) && LeavesFollowup(step, id)
    ensures Underway(Next(s, step), from, id, followup, stored)
  {
    match step
    case Caller(c) =>
    case Loop(l) =>
      if l.Spawn? && s.hand.Launching? {
        SpawnKeepsUnderway(s, from, id, followup, stored);
      }
    case Pass(p) => PassLeavesFollowups(s, p);
    case PoolMove(_) =>
  }

  lemma {:induction false} RunKeepsUnderway(
    s: State, steps: seq<Step>, from: nat, id: nat, followup: Option<Followup>, stored: bool)
    requires Underway(s, from, id, followup, stored)
    requires forall i | 0 <= i < |steps| :: LeavesFollowup(steps[i], id)
    ensures Underway(Run(s, steps), from, id, followup, stored)
  {
    if steps != [] {
      RunKeepsUnderway(s, steps[..|steps| - 1], from, id, followup, stored);
      StepKeepsUnderway(Run(s, steps[..|steps| - 1]), steps[|steps| - 1], from, id, followup, stored);
    }
  }

  /** A follow-up that nothing replaces is given to the todo's next agent, unless the dispatch loop had
      already fetched the follow-up for that agent when this one was sent: then, and only then, the next
      agent gets another or none. */
  lemma {:induction false} FollowupReachesNextAgent(
    max: nat, before: seq<Step>, id: nat, text: string, after: seq<Step>)
    requires forall i | 0 <= i < |after| :: LeavesFollowup(after[i], id)
    ensures var s := Run(Init(max), before);
            var end := Run(Next(s, Caller(InsertFollowup(id, text))), after);
            && |s.dispatched| <= |end.dispatched|
            && var next := FirstFor(end.dispatched[|s.dispatched|..], id);
               next.Some? ==> (next.value.followup == Some(Followup(|Sent(before)|, id, text)) <==> !IsLaunching(s, id))
  {
    var s := Run(Init(max), before);
    var sent, from := Next(s, Caller(InsertFollowup(id, text))), |s.dispatched|;
    FollowupsCarryTheirText(max, before);
    assert sent.dispatched[from..] == [];
    if IsLaunching(s, id) {
      assert Underway(sent, from, id, s.hand.followup, false);
      RunKeepsUnderway(sent, after, from, id, s.hand.followup, false);
    } else {
      var f := Followup(|Sent(before)|, id, text);
      assert Underway(sent, from, id, Some(f), true);
      RunKeepsUnderway(sent, after, from, id, Some(f), true);
    }
  }

  /** While the todo is not being launched and has no agent yet, the follow-up waits in the map. */
  lemma {:induction false} FollowupWaits(max: nat, before: seq<Step>, id: nat, text: string, after: seq<Step>)
    requires forall i | 0 <= i < |after| :: LeavesFollowup(after[i], id)
    requires !IsLaunching(Run(Init(max), before), id)
    ensures var s := Run(Init(max), before);
            var end := Run(Next(s, Caller(InsertFollowup(id, text))), after);
            && |s.dispatched| <= |end.dispatched|
            && (FirstFor(end.dispatched[|s.dispatched|..], id).None? && !IsLaunching(end, id) ==>
                  id in end.desk.followups && end.desk.followups[id].text == text)
  {
    var s := Run(Init(max), before);
    var sent, f := Next(s, Caller(InsertFollowup(id, text))), Followup(|Sent(before)|, id, text);
    FollowupsCarryTheirText(max, before);
    assert sent.dispatched[|s.dispatched|..] == [];
    RunKeepsUnderway(sent, after, |s.dispatched|, id, Some(f), true);
  }
}
