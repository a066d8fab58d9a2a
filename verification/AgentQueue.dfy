/** The queue object: each of its operations is one particular interleaving-free run of the
    dispatch steps, and `Recover` re-queues everything it should (src/agent/agent_queue.rs). */
module AgentQueue {
  import opened Wrappers
  import opened Dispatch

  /** Todos a recovery pass must leave queued: the default user's queued, stale and startable ones. */
  predicate Recoverable(t: Todo) {
    && t.defaultUser
    && (t.status == AgentWorking || t.status == AgentQueued || (t.status == Created && t.startable && !t.internal))
  }

  /** The steps of one dispatch, given whether the store can be read and written and the spawn succeeds. */
  function DispatchSteps(d: Desk, id: nat, readable: bool, writable: bool, spawns: bool): seq<Step> {
    [Loop(Receive), Loop(Acquire)] + StepsHolding(d, id, readable, writable, spawns)
  }

  function StepsHolding(d: Desk, id: nat, readable: bool, writable: bool, spawns: bool): seq<Step> {
    if !readable then [Loop(CheckFails)]
    else if !Queued(d, id) then [Loop(Check)]
    else if !writable then [Loop(Check), Loop(MarkFails)]
    else [Loop(Check), Loop(MarkWorking)] + [Loop(TakeFollowup), if spawns then Loop(Spawn) else Loop(SpawnFails)]
  }

  /** The state one dispatch leaves: nothing but the received id gone, or an agent running with the
      permit, or a failed spawn with the status put back. */
  function AfterDispatch(s: State, readable: bool, writable: bool, spawns: bool): State
    requires s.desk.channel != [] && s.pool.available > 0
  {
    var id := s.desk.channel[0];
    var d := s.desk.(channel := s.desk.channel[1..]);
    if !readable || !Queued(d, id) || !writable then s.(desk := d)
    else
      var taken := if id in d.followups then Some(d.followups[id]) else None;
      var d' := SetStatus(d, id, AgentWorking).(followups := d.followups - {id});
      var a := s.pool.nextAgent;
      if spawns then
        s.(desk := d', dispatched := s.dispatched + [Dispatched(a, id, taken)],
           pool := s.pool.(available := s.pool.available - 1, live := s.pool.live[a := id],
                           slots := s.pool.slots + {a}, nextAgent := a + 1))
      else s.(desk := SetStatus(d', id, AgentQueued))
  }

  function Held(s: State): State
    requires s.desk.channel != [] && s.pool.available > 0
  {
    s.(desk := s.desk.(channel := s.desk.channel[1..]),
       pool := s.pool.(available := s.pool.available - 1), hand := Holding(s.desk.channel[0]))
  }

  lemma ReceiveRuns(s: State, tail: seq<Step>)
    requires s.hand == Free && s.desk.channel != [] && s.pool.available > 0
    ensures Run(s, [Loop(Receive), Loop(Acquire)] + tail) == Run(Held(s), tail)
  {
    RunTwo(s, Loop(Receive), Loop(Acquire));
    RunConcat(s, [Loop(Receive), Loop(Acquire)], tail);
  }

  lemma SkipRuns(s: State)
    requires s.hand.Holding?
    ensures Run(s, [Loop(CheckFails)]) == Freed(s)
    ensures !Queued(s.desk, s.hand.todo) ==> Run(s, [Loop(Check)]) == Freed(s)
    ensures Queued(s.desk, s.hand.todo) ==> Run(s, [Loop(Check), Loop(MarkFails)]) == Freed(s)
  {
    RunOne(s, Loop(CheckFails));
    RunOne(s, Loop(Check));
    RunTwo(s, Loop(Check), Loop(MarkFails));
  }

  lemma {:induction false} DispatchRuns(s: State, readable: bool, writable: bool, spawns: bool)
    requires s.hand == Free && s.desk.channel != [] && s.pool.available > 0
    ensures Run(s, DispatchSteps(s.desk, s.desk.channel[0], readable, writable, spawns))
            == AfterDispatch(s, readable, writable, spawns)
  {
    var id, held := s.desk.channel[0], Held(s);
    ReceiveRuns(s, StepsHolding(s.desk, id, readable, writable, spawns));
    var tail := StepsHolding(s.desk, id, readable, writable, spawns);
    assert Run(held, tail) == AfterDispatch(s, readable, writable, spawns) by {
      if readable && Queued(s.desk, id) && writable {
        LaunchRuns(held, spawns);
        Launched(s, spawns);
      } else {
        SkipRuns(held);
        assert Freed(held) == s.(desk := held.desk);
      }
    }
  }

  lemma {:induction false} Launched(s: State, spawns: bool)
    requires s.hand == Free && s.desk.channel != [] && s.pool.available > 0
    ensures var held := Held(s);
            var working := held.(desk := SetStatus(held.desk, held.hand.todo, AgentWorking),
              hand := Working(held.hand.todo));
            Queued(held.desk, held.hand.todo) ==>
              LoopNext(LoopNext(working, TakeFollowup), if spawns then Spawn else SpawnFails)
                == AfterDispatch(s, true, true, spawns)
  {
  }

  lemma LaunchRuns(s: State, spawns: bool)
    requires s.hand.Holding? && Queued(s.desk, s.hand.todo)
    ensures var last := if spawns then Loop(Spawn) else Loop(SpawnFails);
            var working := s.(desk := SetStatus(s.desk, s.hand.todo, AgentWorking), hand := Working(s.hand.todo));
            Run(s, [Loop(Check), Loop(MarkWorking)] + [Loop(TakeFollowup), last])
            == LoopNext(LoopNext(working, TakeFollowup), last.loop)
  {
    var last := if spawns then Loop(Spawn) else Loop(SpawnFails);
    RunTwo(s, Loop(Check), Loop(MarkWorking));
    RunConcat(s, [Loop(Check), Loop(MarkWorking)], [Loop(TakeFollowup), last]);
    RunTwo(s.(desk := SetStatus(s.desk, s.hand.todo, AgentWorking), hand := Working(s.hand.todo)), Loop(TakeFollowup),
      last);
  }

  /** One turn of the dispatch loop, field by field: the id leaves the channel; a todo that is queued, with a
      store that works, is marked working and gets the next agent, with the todo's follow-up and a permit;
      a failed spawn leaves it queued; in every other case nothing else changes. */
  lemma {:induction false} DispatchAnswer(s: State, readable: bool, writable: bool, spawns: bool)
    requires s.hand == Free && s.desk.channel != [] && s.pool.available > 0
    ensures var id := s.desk.channel[0];
            var after := Run(s, DispatchSteps(s.desk, id, readable, writable, spawns));
            && after.desk.channel == s.desk.channel[1..] && after.hand == Free
            && if !readable || !writable || id !in s.desk.todos || s.desk.todos[id].status != AgentQueued
               then after.desk.todos == s.desk.todos && after.desk.followups == s.desk.followups
                    && after.pool == s.pool && after.dispatched == s.dispatched
               else && after.desk.todos == s.desk.todos[id := s.desk.todos[id].(status := if spawns then AgentWorking
                 else AgentQueued)]
                    && after.desk.followups == s.desk.followups - {id}
                    && (spawns ==>
                          && after.pool.available == s.pool.available - 1
                          && after.pool.slots == s.pool.slots + {s.pool.nextAgent}
                          && after.pool.live == s.pool.live[s.pool.nextAgent := id]
                          && |after.dispatched| == |s.dispatched| + 1
                             && after.dispatched[..|s.dispatched|] == s.dispatched
                          && var d := after.dispatched[|s.dispatched|];
                             && d.agent == s.pool.nextAgent && d.todo == id
                             && d.followup == if id in s.desk.followups then Some(s.desk.followups[id]) else None)
                    && (!spawns ==> after.pool == s.pool && after.dispatched == s.dispatched)
  {
    DispatchRuns(s, readable, writable, spawns);
  }

  class AgentQueue {
    var desk: Desk
    var pool: Pool
    ghost var dispatched: seq<Dispatched>

    constructor (max: nat)
      ensures View() == Init(max)
    {
      desk, pool, dispatched := Init(max).desk, Init(max).pool, [];
    }

    ghost function View(): State
      reads this
    {
      State(desk, pool, Free, NotRecovering, [], dispatched)
    }

    /** Permits in use, whatever the dispatch loop holds; the subtraction cannot go below zero while
        permits are conserved. */
    method ActiveCount(ghost hand: Hand) returns (n: nat)
      requires PermitsConserved(View().(hand := hand))
      ensures n == |pool.slots| + |pool.reacquired| + HandPermits(hand) <= pool.maxConcurrency
    {
      n := pool.maxConcurrency - pool.available;
    }

    method Enqueue(id: nat, storeWrites: bool) returns (ok: bool)
      modifies this`desk
      ensures ok == storeWrites
      ensures View() == if ok then Run(old(View()), [Caller(EnqueueWrite(id)), Caller(EnqueueSend(id))])
              else old(View())
      ensures ok ==> desk.channel == old(desk).channel + [id] && (id in desk.todos ==> Queued(desk, id))
    {
      if !storeWrites {
        return false;
      }
      ghost var before := View();
      desk := SetStatus(desk, id, AgentQueued);
      desk := desk.(channel := desk.channel + [id]);
      RunTwo(before, Caller(EnqueueWrite(id)), Caller(EnqueueSend(id)));
      assert before.desk.inflight + multiset{id} - multiset{id} == before.desk.inflight;
      ok := true;
    }

    method EnqueueFollowup(id: nat, text: string, storeWrites: bool) returns (ok: bool)
      modifies this`desk
      ensures ok == storeWrites
      ensures var inserted := Next(old(View()), Caller(InsertFollowup(id, text)));
              View() == if ok then Run(inserted, [Caller(EnqueueWrite(id)), Caller(EnqueueSend(id))]) else inserted
      ensures ok ==> desk.channel == old(desk).channel + [id]
    {
      desk := desk.(followups := desk.followups[id := Followup(desk.nextFollowup, id, text)],
        nextFollowup := desk.nextFollowup + 1);
      ok := Enqueue(id, storeWrites);
    }

    method TakeFollowupContext(id: nat) returns (taken: Option<Followup>)
      modifies this`desk
      ensures taken == if id in old(desk).followups then Some(old(desk).followups[id]) else None
      ensures desk == old(desk).(followups := old(desk).followups - {id})
    {
      taken := if id in desk.followups then Some(desk.followups[id]) else None;
      desk := desk.(followups := desk.followups - {id});
    }

    /** One turn of the dispatch loop for the id at the head of the channel. */
    method DispatchOne(readable: bool, writable: bool, spawns: bool)
      requires desk.channel != [] && pool.available > 0
      modifies this
      ensures View() == Run(old(View()), DispatchSteps(old(desk), old(desk).channel[0], readable, writable, spawns))
    {
      DispatchRuns(View(), readable, writable, spawns);
      var id := desk.channel[0];
      desk := desk.(channel := desk.channel[1..]);
      pool := pool.(available := pool.available - 1);
      if !readable || id !in desk.todos || desk.todos[id].status != AgentQueued || !writable {
        pool := pool.(available := pool.available + 1);
        return;
      }
      desk := SetStatus(desk, id, AgentWorking);
      var override := TakeFollowupContext(id);
      if spawns {
        dispatched := dispatched + [Dispatched(pool.nextAgent, id, override)];
        pool := pool.(live := pool.live[pool.nextAgent := id], slots := pool.slots + {pool.nextAgent},
          nextAgent := pool.nextAgent + 1);
      } else {
        desk := SetStatus(desk, id, AgentQueued);
        pool := pool.(available := pool.available + 1);
      }
    }

    method ListByStatus(status: TodoStatus) returns (list: seq<nat>)
      ensures ListsStatus(list, desk, status)
    {
      list := [];
      var ids := desk.todos.Keys;
      while ids != {}
        invariant ids <= desk.todos.Keys
        invariant forall id ::
                    id in list
                    <==> id in desk.todos.Keys - ids && desk.todos[id].defaultUser && desk.todos[id].status == status
      {
        var id :| id in ids;
        ids := ids - {id};
        if desk.todos[id].defaultUser && desk.todos[id].status == status {
          list := list + [id];
        }
      }
    }

    /** Enqueue every created, agent-startable, non-internal todo of the default user. */
    method ScanStartable()
      modifies this`desk
      ensures desk == old(desk).(todos := desk.todos, channel := desk.channel, queuedWrites := desk.queuedWrites)
      ensures desk.todos.Keys == old(desk).todos.Keys
      ensures forall id | id in desk.todos ::
                desk.todos[id] == if Eligible(old(desk).todos[id]) then old(desk).todos[id].(status := AgentQueued)
                  else old(desk).todos[id]
      ensures |old(desk).channel| <= |desk.channel| && desk.channel[..|old(desk).channel|] == old(desk).channel
      ensures forall id | id in desk.todos && Eligible(old(desk).todos[id]) :: id in desk.channel[|old(desk).channel|..]
      ensures forall id | id in desk.channel[|old(desk).channel|..] :: id in desk.todos && Eligible(old(desk).todos[id])
    {
      var created := ListByStatus(Created);
      ghost var was := desk;
      ghost var sent: seq<nat> := [];
      for i := 0 to |created|
        invariant desk == was.(todos := desk.todos, channel := was.channel + sent, queuedWrites := desk.queuedWrites)
        invariant desk.todos.Keys == was.todos.Keys
        invariant forall id | id in created :: id in was.todos
        invariant forall id | id in desk.todos ::
                    desk.todos[id] == if id in sent then was.todos[id].(status := AgentQueued) else was.todos[id]
        invariant forall id | id in sent :: id in was.todos && Eligible(was.todos[id])
        invariant forall k | 0 <= k < i && Eligible(was.todos[created[k]]) :: created[k] in sent
      {
        var id := created[i];
        if desk.todos[id].startable && !desk.todos[id].internal {
          desk := SetStatus(desk, id, AgentQueued);
          desk := desk.(channel := desk.channel + [id]);
          assert was.channel + sent + [id] == was.channel + (sent + [id]);
          sent := sent + [id];
        }
      }
      assert desk.channel[|was.channel|..] == sent;
      forall id | id in desk.todos && Eligible(was.todos[id])
        ensures id in sent
      {
        var k :| 0 <= k < |created| && created[k] == id;
      }
    }

    /** From any status table, the default user's working, queued and startable todos all end up queued
        and in the channel; nothing else changes and nothing else is sent. */
    method Recover()
      modifies this`desk
      ensures desk.todos.Keys == old(desk).todos.Keys
      ensures forall id | id in desk.todos ::
                desk.todos[id] == if Recoverable(old(desk).todos[id]) then old(desk).todos[id].(status := AgentQueued)
                  else old(desk).todos[id]
      ensures |old(desk).channel| <= |desk.channel| && desk.channel[..|old(desk).channel|] == old(desk).channel
      ensures forall id | id in desk.todos && Recoverable(old(desk).todos[id]) ::
              id in desk.channel[|old(desk).channel|..]
      ensures forall id | id in desk.channel[|old(desk).channel|..] ::
                id in desk.todos && Recoverable(old(desk).todos[id])
    {
      ResetWorking();
      ghost var reset := desk;
      var queued := ListByStatus(AgentQueued);
      for i := 0 to |queued|
        invariant desk == reset.(channel := reset.channel + queued[..i])
      {
        desk := desk.(channel := desk.channel + [queued[i]]);
        assert reset.channel + queued[..i] + [queued[i]] == reset.channel + queued[..i + 1];
      }
      assert queued[..|queued|] == queued;
      ScanStartable();
      ghost var n := |reset.channel|;
      assert desk.channel[..n + |queued|] == reset.channel + queued;
      assert desk.channel[n..] == queued + desk.channel[n + |queued|..];
      assert desk.channel[..n] == (reset.channel + queued)[..n] == reset.channel;
    }

    /** The first phase: stale working todos go back to queued. */
    method ResetWorking()
      modifies this`desk
      ensures desk == old(desk).(todos := desk.todos, queuedWrites := desk.queuedWrites)
      ensures desk.todos.Keys == old(desk).todos.Keys
      ensures forall id | id in desk.todos ::
                desk.todos[id] == if old(desk).todos[id].defaultUser && old(desk).todos[id].status == AgentWorking
                                  then old(desk).todos[id].(status := AgentQueued) else old(desk).todos[id]
    {
      var working := ListByStatus(AgentWorking);
      ghost var was := desk;
      for i := 0 to |working|
        invariant desk == was.(todos := desk.todos, queuedWrites := desk.queuedWrites)
        invariant desk.todos.Keys == was.todos.Keys
        invariant forall id | id in desk.todos ::
                    desk.todos[id] == if id in working[..i] then was.todos[id].(status := AgentQueued)
                      else was.todos[id]
      {
        desk := SetStatus(desk, working[i], AgentQueued);
      }
      assert working[..|working|] == working;
    }
  }

  function EnqueueSteps(id: nat): seq<Step> {
    [Caller(EnqueueWrite(id)), Caller(EnqueueSend(id))]
  }

  /** Nothing but one queued todo in the channel. */
  predicate OneWaiting(s: State, id: nat) {
    && s.hand == Free && s.recovery == NotRecovering && s.desk.channel == [id] && s.desk.inflight == multiset{}
    && Queued(s.desk, id) && s.pool.available > 0 && s.dispatched == []
  }

  lemma {:induction false} EnqueuedAlone(s: State, id: nat)
    requires s.hand == Free && s.recovery == NotRecovering && s.desk.channel == [] && s.desk.inflight == multiset{}
    requires id in s.desk.todos && s.pool.available > 0 && s.dispatched == []
    ensures OneWaiting(Next(Next(s, Caller(EnqueueWrite(id))), Caller(EnqueueSend(id))), id)
  {
    var written := Next(s, Caller(EnqueueWrite(id)));
    assert written.desk.inflight == multiset{id};
  }

  lemma {:induction false} FirstEnqueue(max: nat, id: nat, todo: Todo)
    requires max > 0
    ensures OneWaiting(Run(Init(max), [Caller(AddTodo(id, todo))] + EnqueueSteps(id)), id)
  {
    var start, add := Init(max), Caller(AddTodo(id, todo));
    RunOne(start, add);
    RunTwo(Next(start, add), Caller(EnqueueWrite(id)), Caller(EnqueueSend(id)));
    RunConcat(start, [add], EnqueueSteps(id));
    EnqueuedAlone(Next(start, add), id);
  }

  /** The one agent runs and nothing is on its way. */
  predicate OneRunning(s: State, id: nat) {
    && s.hand == Free && s.recovery == NotRecovering && s.desk.channel == [] && s.desk.inflight == multiset{}
    && id in s.desk.todos && |s.dispatched| == 1 && s.dispatched[0].todo == id
  }

  lemma {:induction false} FirstDispatch(s: State, id: nat)
    requires OneWaiting(s, id)
    ensures OneRunning(Run(s, DispatchSteps(s.desk, id, true, true, true)), id)
  {
    DispatchRuns(s, true, true, true);
  }

  lemma DispatchIsNotLossy(d: Desk, id: nat)
    ensures forall i | 0 <= i < |DispatchSteps(d, id, true, true, true)| ::
            !Lossy(DispatchSteps(d, id, true, true, true)[i])
  {
  }

  /** A client that read the row while the todo was queued and writes it back after the dispatch: the todo
      has its agent and is queued again, on its way nowhere. */
  lemma {:induction false} StaleWriteStrandsTodo(max: nat, id: nat, todo: Todo) returns (steps: seq<Step>)
    requires max > 0
    ensures forall i | 0 <= i < |steps| :: !Lossy(steps[i])
    ensures var s := Run(Init(max), steps + [Caller(WriteStatus(id, AgentQueued))]);
            && Queued(s.desk, id) && !OnItsWay(s, id) && !Covered(s)
            && |s.dispatched| == 1 && s.dispatched[0].todo == id
  {
    var enqueue := [Caller(AddTodo(id, todo))] + EnqueueSteps(id);
    var queued := Run(Init(max), enqueue);
    var dispatch := DispatchSteps(queued.desk, id, true, true, true);
    FirstEnqueue(max, id, todo);
    FirstDispatch(queued, id);
    DispatchIsNotLossy(queued.desk, id);
    RunConcat(Init(max), enqueue, dispatch);
    steps := enqueue + dispatch;
    var s, write := Run(Init(max), steps), Caller(WriteStatus(id, AgentQueued));
    RunOne(s, write);
    RunConcat(Init(max), steps, [write]);
    assert !CoveredFor(Next(s, write), id);
  }
}
