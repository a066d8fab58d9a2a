/** Todo agent dispatch as interleaved steps: callers enqueue, one loop dispatches, agents give their
    permit back while they wait for approval, a background pass recovers
    (src/agent/agent_queue.rs, src/channels/todo_channel.rs, src/cards/handlers/action.rs). */
module Dispatch {
  import opened Wrappers

  datatype TodoStatus =
    | Created | AgentQueued | AgentWorking | AwaitingApproval | ReadyForReview | WaitingOnYou | Snoozed | Completed

  datatype Todo = Todo(status: TodoStatus, defaultUser: bool, startable: bool, internal: bool)

  /** A follow-up text with the todo it was sent for; `id` tells equal texts apart. */
  datatype Followup = Followup(id: nat, todo: nat, text: string)

  /** Where the dispatch loop is. It holds a permit from `Holding` on. */
  datatype Hand =
    | Free
    | Received(todo: nat)
    | Holding(todo: nat)
    | Checked(todo: nat)
    | Working(todo: nat)
    | Launching(todo: nat, followup: Option<Followup>)

  /** Where the recovery pass is: resetting stale todos, or sending every queued one. */
  datatype Recovery = NotRecovering | Resetting(rest: seq<nat>, done: set<nat>) | Sending(rest: seq<nat>)

  datatype Dispatched = Dispatched(agent: nat, todo: nat, followup: Option<Followup>)

  /** The store's status table, the channel, and what callers have left in memory. */
  datatype Desk = Desk(
    todos: map<nat, Todo>,
    known: set<nat>,                  // every todo id ever created
    queuedWrites: multiset<nat>,      // every write of AgentQueued so far
    channel: seq<nat>,
    inflight: multiset<nat>,          // enqueues between their status write and their send
    followups: map<nat, Followup>,    // override content by todo
    nextFollowup: nat)

  /** The semaphore and everything that can hold one of its permits besides the dispatch loop. */
  datatype Pool = Pool(
    maxConcurrency: nat,
    available: nat,                   // permits in the semaphore
    live: map<nat, nat>,              // running agents and their todos
    slots: set<nat>,                  // agents whose slot holds a permit
    registry: map<nat, nat>,          // approval cards waiting for an answer, and their agents
    resolving: map<nat, nat>,         // answered cards waiting for a permit
    reacquired: map<nat, nat>,        // answered cards with a permit in hand
    nextAgent: nat)

  datatype State = State(
    desk: Desk, pool: Pool, hand: Hand, recovery: Recovery,
    scanning: seq<nat>,               // eligible todos the startable scan has yet to enqueue
    dispatched: seq<Dispatched>)      // every agent spawned so far

  function Init(max: nat): State {
    State(Desk(map[], {}, multiset{}, [], multiset{}, map[], 0),
          Pool(max, max, map[], {}, map[], map[], map[], 0), Free, NotRecovering, [], [])
  }

  /** What callers, agents' status writes and clients do. */
  datatype CallerStep =
    | AddTodo(id: nat, todo: Todo)
    | DeleteTodo(id: nat)
    | WriteStatus(id: nat, status: TodoStatus)
    | InsertFollowup(id: nat, text: string)
    | EnqueueWrite(id: nat)
    | EnqueueSend(id: nat)

  /** The dispatch loop; the `Fails` steps are the store or the spawn returning an error. */
  datatype LoopStep =
    | Receive | Acquire | Check | CheckFails | MarkWorking | MarkFails | TakeFollowup | Spawn | SpawnFails

  /** The background pass: recover, then scan for startable todos. */
  datatype PassStep =
    | RecoverStart(list: seq<nat>) | RecoverReset | RecoverResetFails
    | RecoverList(list: seq<nat>) | RecoverSend | RecoverDone
    | ScanStart(list: seq<nat>) | ScanWrite

  /** Agents, approval cards and permits. */
  datatype PoolStep =
    | Register(agent: nat, card: nat)
    | ReleaseSlot(agent: nat)                       // approval wait, or shutdown
    | ResolveTake(card: nat)
    | ResolveAcquire(card: nat)
    | ResolveStore(card: nat)
    | AgentExit(agent: nat)
    | DropSlot(agent: nat)                          // the last reference to a dead agent's slot goes

  datatype Step = Caller(caller: CallerStep) | Loop(loop: LoopStep) | Pass(pass: PassStep) | PoolMove(move: PoolStep)

  // ---------- helpers ----------

  predicate Queued(d: Desk, id: nat) {
    id in d.todos && d.todos[id].status == AgentQueued
  }

  predicate Eligible(t: Todo) {
    t.defaultUser && t.status == Created && t.startable && !t.internal
  }

  /** A status update is an SQL update: a missing row is not an error and nothing is written. */
  function SetStatus(d: Desk, id: nat, status: TodoStatus): Desk {
    if id !in d.todos then d
    else d.(todos := d.todos[id := d.todos[id].(status := status)],
            queuedWrites := if status == AgentQueued then d.queuedWrites + multiset{id} else d.queuedWrites)
  }

  function MorePermits(p: Pool): Pool {
    p.(available := p.available + 1)
  }

  function Freed(s: State): State {
    s.(hand := Free, pool := MorePermits(s.pool))
  }

  function HandPermits(h: Hand): nat {
    if h.Free? || h.Received? then 0 else 1
  }

  ghost predicate ListsStatus(list: seq<nat>, d: Desk, status: TodoStatus) {
    forall id :: id in list <==> id in d.todos && d.todos[id].defaultUser && d.todos[id].status == status
  }

  ghost predicate ListsEligible(list: seq<nat>, d: Desk) {
    forall id :: id in list <==> id in d.todos && Eligible(d.todos[id])
  }

  // ---------- steps; one that is not enabled does not happen ----------

  function CallerNext(d: Desk, step: CallerStep): Desk {
    match step
    case AddTodo(id, todo) =>
      if id in d.known then d else d.(todos := d.todos[id := todo.(status := Created)], known := d.known + {id})
    case DeleteTodo(id) => d.(todos := d.todos - {id})
    case WriteStatus(id, status) => SetStatus(d, id, status)
    case InsertFollowup(id, text) =>
      d.(followups := d.followups[id := Followup(d.nextFollowup, id, text)], nextFollowup := d.nextFollowup + 1)
    case EnqueueWrite(id) => SetStatus(d, id, AgentQueued).(inflight := d.inflight + multiset{id})
    case EnqueueSend(id) =>
      if id in d.inflight then d.(inflight := d.inflight - multiset{id}, channel := d.channel + [id]) else d
  }

  function LoopNext(s: State, step: LoopStep): State {
    match step
    case Receive =>
      if !s.hand.Free? || s.desk.channel == [] then s
      else s.(hand := Received(s.desk.channel[0]), desk := s.desk.(channel := s.desk.channel[1..]))
    case Acquire =>
      if !s.hand.Received? || s.pool.available == 0 then s
      else s.(hand := Holding(s.hand.todo), pool := s.pool.(available := s.pool.available - 1))
    case Check =>
      if !s.hand.Holding? then s
      else if Queued(s.desk, s.hand.todo) then s.(hand := Checked(s.hand.todo))
      else Freed(s)
    case CheckFails => if !s.hand.Holding? then s else Freed(s)
    case MarkWorking =>
      if !s.hand.Checked? then s
      else s.(desk := SetStatus(s.desk, s.hand.todo, AgentWorking), hand := Working(s.hand.todo))
    case MarkFails => if !s.hand.Checked? then s else Freed(s)
    case TakeFollowup =>
      if !s.hand.Working? then s
      else
        var id := s.hand.todo;
        s.(hand := Launching(id, if id in s.desk.followups then Some(s.desk.followups[id]) else None),
           desk := s.desk.(followups := s.desk.followups - {id}))
    case Spawn =>
      if !s.hand.Launching? then s
      else
        var a := s.pool.nextAgent;
        s.(hand := Free,
           pool := s.pool.(live := s.pool.live[a := s.hand.todo], slots := s.pool.slots + {a}, nextAgent := a + 1),
           dispatched := s.dispatched + [Dispatched(a, s.hand.todo, s.hand.followup)])
    case SpawnFails =>
      if !s.hand.Launching? then s
      else Freed(s.(desk := SetStatus(s.desk, s.hand.todo, AgentQueued)))
  }

  ghost function PassNext(s: State, step: PassStep): State {
    match step
    case RecoverStart(list) =>
      if s.recovery.NotRecovering? && ListsStatus(list, s.desk, AgentWorking) then s.(recovery := Resetting(list, {}))
        else s
    case RecoverReset =>
      if !s.recovery.Resetting? || s.recovery.rest == [] then s
      else
        var id := s.recovery.rest[0];
        s.(desk := SetStatus(s.desk, id, AgentQueued), recovery := Resetting(s.recovery.rest[1..], s.recovery.done
          + {id}))
    case RecoverResetFails =>
      if !s.recovery.Resetting? || s.recovery.rest == [] then s
      else s.(recovery := Resetting(s.recovery.rest[1..], s.recovery.done))
    case RecoverList(list) =>
      if s.recovery.Resetting? && s.recovery.rest == [] && ListsStatus(list, s.desk, AgentQueued)
      then s.(recovery := Sending(list)) else s
    case RecoverSend =>
      if !s.recovery.Sending? || s.recovery.rest == [] then s
      else s.(desk := s.desk.(channel := s.desk.channel + [s.recovery.rest[0]]),
        recovery := Sending(s.recovery.rest[1..]))
    case RecoverDone => if s.recovery == Sending([]) then s.(recovery := NotRecovering) else s
    case ScanStart(list) => if s.scanning == [] && ListsEligible(list, s.desk) then s.(scanning := list) else s
    case ScanWrite =>
      if s.scanning == [] then s
      else s.(desk := CallerNext(s.desk, EnqueueWrite(s.scanning[0])), scanning := s.scanning[1..])
  }

  function PoolNext(p: Pool, step: PoolStep): Pool {
    match step
    case Register(agent, card) =>
      if agent in p.live && card !in p.registry && card !in p.resolving && card !in p.reacquired
      then p.(registry := p.registry[card := agent]) else p
    case ReleaseSlot(agent) =>
      if agent in p.live && agent in p.slots then MorePermits(p).(slots := p.slots - {agent}) else p
    case ResolveTake(card) =>
      if card in p.registry && card !in p.resolving && card !in p.reacquired
      then p.(registry := p.registry - {card}, resolving := p.resolving[card := p.registry[card]]) else p
    case ResolveAcquire(card) =>
      if card in p.resolving && card !in p.reacquired && p.available > 0
      then p.(resolving := p.resolving - {card}, reacquired := p.reacquired[card := p.resolving[card]],
              available := p.available - 1)
      else p
    case ResolveStore(card) =>
      // storing over a permit that is still there drops the old one
      if card !in p.reacquired then p
      else if p.reacquired[card] in p.slots then MorePermits(p).(reacquired := p.reacquired - {card})
      else p.(reacquired := p.reacquired - {card}, slots := p.slots + {p.reacquired[card]})
    case AgentExit(agent) =>
      if agent !in p.live then p
      else
        var cleaned := map card | card in p.registry && p.registry[card] in p.live
          && p.live[p.registry[card]] != p.live[agent] :: p.registry[card];
        var gone := p.(live := p.live - {agent}, registry := cleaned, slots := p.slots - {agent});
        if agent in p.slots then MorePermits(gone) else gone
    case DropSlot(agent) =>
      if && agent in p.slots && agent !in p.live
         && agent !in p.registry.Values && agent !in p.resolving.Values && agent !in p.reacquired.Values
      then MorePermits(p).(slots := p.slots - {agent}) else p
  }

  ghost function Next(s: State, step: Step): State {
    match step
    case Caller(c) => s.(desk := CallerNext(s.desk, c))
    case Loop(l) => LoopNext(s, l)
    case Pass(p) => PassNext(s, p)
    case PoolMove(m) => s.(pool := PoolNext(s.pool, m))
  }

  ghost function Run(s: State, steps: seq<Step>): State {
    if steps == [] then s else Next(Run(s, steps[..|steps| - 1]), steps[|steps| - 1])
  }

  // ---------- permits ----------

  /** Permits in the semaphore, in agent slots and in resolvers' hands. */
  function PoolPermits(p: Pool): nat {
    p.available + |p.slots| + |p.reacquired|
  }

  predicate PermitsConserved(s: State) {
    PoolPermits(s.pool) + HandPermits(s.hand) == s.pool.maxConcurrency
  }

  /** Agents are numbered by the supply, so a new agent's slot is never already filled. */
  predicate AgentsNumbered(p: Pool) {
    && (forall a | a in p.live :: a < p.nextAgent)
    && (forall a | a in p.slots :: a < p.nextAgent)
    && (forall c | c in p.registry :: p.registry[c] < p.nextAgent)
    && (forall c | c in p.resolving :: p.resolving[c] < p.nextAgent)
    && (forall c | c in p.reacquired :: p.reacquired[c] < p.nextAgent)
  }

  lemma MapGrows(m: map<nat, nat>, k: nat, v: nat)
    requires k !in m
    ensures |m[k := v]| == |m| + 1
  {
    assert m[k := v].Keys == m.Keys + {k};
  }

  lemma MapShrinks(m: map<nat, nat>, k: nat)
    requires k in m
    ensures |m - {k}| == |m| - 1
  {
    assert (m - {k}).Keys == m.Keys - {k};
  }

  lemma {:induction false} PoolStepKeepsNumbering(p: Pool, step: PoolStep)
    requires AgentsNumbered(p)
    ensures AgentsNumbered(PoolNext(p, step)) && PoolNext(p, step).maxConcurrency == p.maxConcurrency
  {
  }

  lemma SlotFreed(slots: set<nat>, agent: nat)
    ensures |slots - {agent}| == |slots| - (if agent in slots then 1 else 0)
  {
    if agent !in slots {
      assert slots - {agent} == slots;
    }
  }

  lemma ExitConserves(p: Pool, agent: nat)
    ensures PoolPermits(PoolNext(p, AgentExit(agent))) == PoolPermits(p)
  {
    SlotFreed(p.slots, agent);
  }

  lemma AcquireConserves(p: Pool, card: nat)
    ensures PoolPermits(PoolNext(p, ResolveAcquire(card))) == PoolPermits(p)
  {
    if card in p.resolving && card !in p.reacquired {
      MapGrows(p.reacquired, card, p.resolving[card]);
    }
  }

  lemma StoreConserves(p: Pool, card: nat)
    ensures PoolPermits(PoolNext(p, ResolveStore(card))) == PoolPermits(p)
  {
    if card in p.reacquired {
      MapShrinks(p.reacquired, card);
      assert p.reacquired[card] !in p.slots ==> |p.slots + {p.reacquired[card]}| == |p.slots| + 1;
    }
  }

  lemma {:induction false} PoolStepConserves(p: Pool, step: PoolStep)
    ensures PoolPermits(PoolNext(p, step)) == PoolPermits(p)
  {
    match step
    case Register(_, _) =>
    case ReleaseSlot(agent) => SlotFreed(p.slots, agent);
    case ResolveTake(_) =>
    case ResolveAcquire(card) => AcquireConserves(p, card);
    case ResolveStore(card) => StoreConserves(p, card);
    case AgentExit(agent) => ExitConserves(p, agent);
    case DropSlot(agent) => SlotFreed(p.slots, agent);
  }

  lemma {:induction false} SpawnConserves(s: State)
    requires PermitsConserved(s) && AgentsNumbered(s.pool) && s.hand.Launching?
    ensures PermitsConserved(LoopNext(s, Spawn)) && AgentsNumbered(LoopNext(s, Spawn).pool)
  {
    var p, a := s.pool, s.pool.nextAgent;
    SlotTaken(p.slots, a);
    NumberingGrows(p, s.hand.todo);
    assert LoopNext(s, Spawn).pool == p.(live := p.live[a := s.hand.todo], slots := p.slots + {a}, nextAgent := a + 1);
  }

  /** A whole approval wait: the agent's permit goes back to the semaphore, and once the card is answered the
      same agent has one again and everything else is as it was. */
  lemma {:induction false} ApprovalWaitRoundTrip(p: Pool, agent: nat, card: nat)
    requires agent in p.live && agent in p.slots
    requires card !in p.registry && card !in p.resolving && card !in p.reacquired
    ensures var waiting := PoolNext(PoolNext(p, Register(agent, card)), ReleaseSlot(agent));
            && waiting.available == p.available + 1 && agent !in waiting.slots && card in waiting.registry
            && PoolNext(PoolNext(PoolNext(waiting, ResolveTake(card)), ResolveAcquire(card)), ResolveStore(card)) == p
  {
    var waiting := PoolNext(PoolNext(p, Register(agent, card)), ReleaseSlot(agent));
    var taken := PoolNext(waiting, ResolveTake(card));
    assert taken.registry == p.registry && taken.resolving == p.resolving[card := agent];
    var acquired := PoolNext(taken, ResolveAcquire(card));
    assert acquired.resolving == p.resolving && acquired.reacquired == p.reacquired[card := agent];
    var stored := PoolNext(acquired, ResolveStore(card));
    assert stored.reacquired == p.reacquired && stored.slots == p.slots;
  }

  /** An agent that ends gives its permit back, and no card keeps waiting for an agent of its todo. */
  lemma {:induction false} ExitAnswer(p: Pool, agent: nat)
    requires agent in p.live
    ensures var after := PoolNext(p, AgentExit(agent));
            && after.live == p.live - {agent} && after.slots == p.slots - {agent}
            && after.available == p.available + (if agent in p.slots then 1 else 0)
            && (forall card | card in after.registry :: card in p.registry && after.registry[card] == p.registry[card])
            && (forall card | card in p.registry && p.registry[card] in p.live ::
                  card in after.registry <==> p.live[p.registry[card]] != p.live[agent])
  {
  }

  lemma SlotTaken(slots: set<nat>, agent: nat)
    requires agent !in slots
    ensures |slots + {agent}| == |slots| + 1
  {
  }

  lemma NumberingGrows(p: Pool, todo: nat)
    requires AgentsNumbered(p)
    ensures AgentsNumbered(p.(live := p.live[p.nextAgent := todo], slots := p.slots + {p.nextAgent},
            nextAgent := p.nextAgent + 1))
  {
  }

  lemma {:induction false} LoopStepConserves(s: State, step: LoopStep)
    requires PermitsConserved(s) && AgentsNumbered(s.pool)
    ensures PermitsConserved(LoopNext(s, step)) && AgentsNumbered(LoopNext(s, step).pool)
    ensures LoopNext(s, step).pool.maxConcurrency == s.pool.maxConcurrency
  {
    if step.Spawn? && s.hand.Launching? {
      SpawnConserves(s);
    } else {
      assert LoopNext(s, step).pool.slots == s.pool.slots;
    }
  }

  lemma PassLeavesPool(s: State, step: PassStep)
    ensures PassNext(s, step).pool == s.pool && PassNext(s, step).hand == s.hand
  {
  }

  lemma {:induction false} StepConservesPermits(s: State, step: Step)
    requires PermitsConserved(s) && AgentsNumbered(s.pool)
    ensures PermitsConserved(Next(s, step)) && AgentsNumbered(Next(s, step).pool)
    ensures Next(s, step).pool.maxConcurrency == s.pool.maxConcurrency
  {
    match step
    case PoolMove(m) =>
      PoolStepConserves(s.pool, m);
      PoolStepKeepsNumbering(s.pool, m);
    case Loop(l) => LoopStepConserves(s, l);
    case Pass(p) => PassLeavesPool(s, p);
    case Caller(_) =>
  }

  /** In every interleaving the permits in the semaphore, in the dispatcher's hand, in agent slots and
      in resolvers' hands add up to the maximum: at most that many agents hold one, and the number in
      use never goes below zero. */
  lemma {:induction false} PermitConservation(max: nat, steps: seq<Step>)
    ensures var s := Run(Init(max), steps);
            && PermitsConserved(s) && AgentsNumbered(s.pool) && s.pool.maxConcurrency == max
            && |s.pool.slots| <= max && s.pool.available <= max
  {
    if steps != [] {
      PermitConservation(max, steps[..|steps| - 1]);
      StepConservesPermits(Run(Init(max), steps[..|steps| - 1]), steps[|steps| - 1]);
    }
  }

  // ---------- no duplicate dispatch ----------

  function DispatchCount(ds: seq<Dispatched>, id: nat): nat {
    if ds == [] then 0 else DispatchCount(ds[..|ds| - 1], id) + (if ds[|ds| - 1].todo == id then 1 else 0)
  }

  /** Dispatches a todo's past writes may still cause: one if it is queued or checked, one if it is being launched. */
  function Owed(d: Desk, hand: Hand, id: nat): nat {
    (if Queued(d, id) || hand == Checked(id) then 1 else 0)
    + (if hand == Working(id) || (hand.Launching? && hand.todo == id) then 1 else 0)
  }

  predicate CreditOkFor(s: State, id: nat) {
    DispatchCount(s.dispatched, id) + Owed(s.desk, s.hand, id) <= s.desk.queuedWrites[id]
  }

  ghost predicate CreditOk(s: State) {
    forall id: nat :: CreditOkFor(s, id)
  }

  lemma {:induction false} LoopKeepsCredit(s: State, step: LoopStep, id: nat)
    requires CreditOkFor(s, id)
    ensures CreditOkFor(LoopNext(s, step), id)
  {
    var next := LoopNext(s, step);
    if step.Spawn? && s.hand.Launching? {
      assert next.dispatched[..|next.dispatched| - 1] == s.dispatched;
    }
  }

  lemma SetStatusKeepsCredit(d: Desk, hand: Hand, id: nat, status: TodoStatus, other: nat)
    ensures var after := SetStatus(d, id, status);
            after.queuedWrites[other] - Owed(after, hand, other) >= d.queuedWrites[other] - Owed(d, hand, other)
  {
  }

  lemma CallerKeepsCredit(s: State, step: CallerStep, id: nat)
    requires CreditOkFor(s, id)
    ensures CreditOkFor(s.(desk := CallerNext(s.desk, step)), id)
  {
    match step
    case WriteStatus(t, status) => SetStatusKeepsCredit(s.desk, s.hand, t, status, id);
    case EnqueueWrite(t) => SetStatusKeepsCredit(s.desk, s.hand, t, AgentQueued, id);
    case AddTodo(_, _) =>
    case DeleteTodo(_) =>
    case InsertFollowup(_, _) =>
    case EnqueueSend(_) =>
  }

  lemma PassKeepsCredit(s: State, step: PassStep, id: nat)
    requires CreditOkFor(s, id)
    ensures CreditOkFor(PassNext(s, step), id)
  {
    if step.RecoverReset? && s.recovery.Resetting? && s.recovery.rest != [] {
      SetStatusKeepsCredit(s.desk, s.hand, s.recovery.rest[0], AgentQueued, id);
    } else if step.ScanWrite? && s.scanning != [] {
      SetStatusKeepsCredit(s.desk, s.hand, s.scanning[0], AgentQueued, id);
    }
  }

  lemma StepKeepsCredit(s: State, step: Step)
    requires CreditOk(s)
    ensures CreditOk(Next(s, step))
  {
    forall id: nat ensures CreditOkFor(Next(s, step), id) {
      assert CreditOkFor(s, id);
      match step
      case Caller(c) => CallerKeepsCredit(s, c, id);
      case Loop(l) => LoopKeepsCredit(s, l, id);
      case Pass(p) => PassKeepsCredit(s, p, id);
      case PoolMove(_) =>
    }
  }

  /** However often a todo sits in the channel, it is dispatched at most once per write of AgentQueued. */
  lemma {:induction false} DispatchesBoundedByWrites(max: nat, steps: seq<Step>)
    ensures var s := Run(Init(max), steps);
            CreditOk(s) && forall id: nat :: DispatchCount(s.dispatched, id) <= s.desk.queuedWrites[id]
  {
    if steps != [] {
      DispatchesBoundedByWrites(max, steps[..|steps| - 1]);
      StepKeepsCredit(Run(Init(max), steps[..|steps| - 1]), steps[|steps| - 1]);
    }
    var s := Run(Init(max), steps);
    forall id: nat ensures DispatchCount(s.dispatched, id) <= s.desk.queuedWrites[id] {
      assert CreditOkFor(s, id);
    }
  }

  // ---------- follow-ups ----------

  /** The follow-up texts that have left the map: delivered to agents, or in the dispatcher's hand. */
  function Taken(s: State): seq<Dispatched> {
    s.dispatched + (if s.hand.Launching? then [Dispatched(0, s.hand.todo, s.hand.followup)] else [])
  }

  predicate OwnTodo(d: Dispatched, n: nat) {
    d.followup.Some? ==> d.followup.value.todo == d.todo && d.followup.value.id < n
  }

  predicate Apart(a: Dispatched, b: Dispatched) {
    a.followup.Some? && b.followup.Some? ==> a.followup.value.id != b.followup.value.id
  }

  /** Stored follow-ups belong to their key and have ids of their own. */
  predicate StoredOk(d: Desk) {
    && (forall id | id in d.followups :: d.followups[id].todo == id && d.followups[id].id < d.nextFollowup)
    && (forall a, b | a in d.followups && b in d.followups && a != b :: d.followups[a].id != d.followups[b].id)
  }

  predicate TakenOk(taken: seq<Dispatched>, d: Desk) {
    && (forall i | 0 <= i < |taken| :: OwnTodo(taken[i], d.nextFollowup))
    && (forall i, j | 0 <= i < j < |taken| :: Apart(taken[i], taken[j]))
    && (forall i, id | 0 <= i < |taken| && id in d.followups ::
       Apart(taken[i], Dispatched(0, id, Some(d.followups[id]))))
  }

  predicate FollowupsOk(s: State) {
    StoredOk(s.desk) && TakenOk(Taken(s), s.desk)
  }

  lemma TakeKeepsFollowups(s: State)
    requires FollowupsOk(s) && s.hand.Working?
    ensures FollowupsOk(LoopNext(s, TakeFollowup))
  {
    var next := LoopNext(s, TakeFollowup);
    assert Taken(s) == s.dispatched;
    var newest := Taken(next)[|s.dispatched|];
    forall i | 0 <= i < |s.dispatched| ensures Apart(Taken(next)[i], newest) {
      if s.hand.todo in s.desk.followups {
        assert Apart(s.dispatched[i], Dispatched(0, s.hand.todo, Some(s.desk.followups[s.hand.todo])));
      }
    }
  }

  lemma {:induction false} LoopKeepsFollowups(s: State, step: LoopStep)
    requires FollowupsOk(s)
    ensures FollowupsOk(LoopNext(s, step))
  {
    var next := LoopNext(s, step);
    if step.TakeFollowup? && s.hand.Working? {
      TakeKeepsFollowups(s);
    } else if step.Spawn? && s.hand.Launching? {
      assert |Taken(next)| == |Taken(s)|;
      assert forall i | 0 <= i < |Taken(s)| ::
          Taken(next)[i].todo == Taken(s)[i].todo && Taken(next)[i].followup == Taken(s)[i].followup;
    } else {
      assert |Taken(next)| <= |Taken(s)| && Taken(next) == Taken(s)[..|Taken(next)|];
    }
  }

  lemma {:induction false} CallerKeepsFollowups(taken: seq<Dispatched>, d: Desk, step: CallerStep)
    requires StoredOk(d) && TakenOk(taken, d)
    ensures StoredOk(CallerNext(d, step)) && TakenOk(taken, CallerNext(d, step))
  {
    if !step.InsertFollowup? {
      assert CallerNext(d, step).followups == d.followups && CallerNext(d, step).nextFollowup == d.nextFollowup;
    }
  }

  lemma PassLeavesFollowups(s: State, step: PassStep)
    ensures var next := PassNext(s, step);
            && next.desk.followups == s.desk.followups && next.desk.nextFollowup == s.desk.nextFollowup
            && next.hand == s.hand && next.dispatched == s.dispatched
  {
  }

  lemma {:induction false} StepKeepsFollowups(s: State, step: Step)
    requires FollowupsOk(s)
    ensures FollowupsOk(Next(s, step))
  {
    match step
    case Caller(c) => CallerKeepsFollowups(Taken(s), s.desk, c);
    case Loop(l) => LoopKeepsFollowups(s, l);
    case Pass(p) => PassLeavesFollowups(s, p);
    case PoolMove(_) =>
  }

  /** Each follow-up text reaches at most one agent, and that agent works on the todo it was sent for. */
  lemma {:induction false} FollowupsReachOneAgent(max: nat, steps: seq<Step>)
    ensures var s := Run(Init(max), steps);
            && FollowupsOk(s)
            && (forall i | 0 <= i < |s.dispatched| :: OwnTodo(s.dispatched[i], s.desk.nextFollowup))
            && (forall i, j | 0 <= i < j < |s.dispatched| :: Apart(s.dispatched[i], s.dispatched[j]))
  {
    if steps != [] {
      FollowupsReachOneAgent(max, steps[..|steps| - 1]);
      StepKeepsFollowups(Run(Init(max), steps[..|steps| - 1]), steps[|steps| - 1]);
    }
    var s := Run(Init(max), steps);
    assert forall i | 0 <= i < |s.dispatched| :: Taken(s)[i] == s.dispatched[i];
  }

  // ---------- no queued todo is lost ----------

  /** On its way: in the channel, in the dispatcher's hand, about to be sent by an enqueue, or about to
      be sent by the recovery pass. */
  predicate OnItsWay(s: State, id: nat) {
    || id in s.desk.channel
    || s.hand == Received(id) || s.hand == Holding(id) || s.hand == Checked(id)
    || id in s.desk.inflight
    || (s.recovery.Resetting? && id in s.recovery.done)
    || (s.recovery.Sending? && id in s.recovery.rest)
  }

  predicate CoveredFor(s: State, id: nat) {
    Queued(s.desk, id) ==> OnItsWay(s, id)
  }

  ghost predicate Covered(s: State) {
    forall id: nat :: CoveredFor(s, id)
  }

  predicate Own(d: Desk, id: nat) {
    id in d.known && (id in d.todos ==> d.todos[id].defaultUser)
  }

  /** The recovery pass only resets the default user's todos. */
  predicate RecoveryOwn(s: State) {
    && s.desk.todos.Keys <= s.desk.known
    && (s.recovery.Resetting? ==>
          && (forall id | id in s.recovery.done :: Own(s.desk, id))
          && (forall id | id in s.recovery.rest :: Own(s.desk, id)))
  }

  /** The steps that can leave a queued todo behind: a store failure while dispatching, a failed
      spawn, and a status of AgentQueued written from outside the queue. */
  predicate Lossy(step: Step) {
    || step == Loop(CheckFails) || step == Loop(MarkFails) || step == Loop(SpawnFails)
    || (step.Caller? && step.caller.WriteStatus? && step.caller.status == AgentQueued)
  }

  lemma {:induction false} OwnStays(s: State, step: Step, id: nat)
    requires Own(s.desk, id) && s.desk.todos.Keys <= s.desk.known
    ensures Own(Next(s, step).desk, id)
  {
    match step
    case Caller(c) => CallerOwnStays(s.desk, c, id);
    case Loop(l) => LoopOwnStays(s, l, id);
    case Pass(p) => PassOwnStays(s, p, id);
    case PoolMove(_) =>
  }

  lemma LoopOwnStays(s: State, step: LoopStep, id: nat)
    requires Own(s.desk, id)
    ensures Own(LoopNext(s, step).desk, id)
  {
  }

  lemma PassOwnStays(s: State, step: PassStep, id: nat)
    requires Own(s.desk, id)
    ensures Own(PassNext(s, step).desk, id)
  {
  }

  lemma CallerOwnStays(d: Desk, step: CallerStep, id: nat)
    requires Own(d, id)
    ensures Own(CallerNext(d, step), id)
  {
  }

  lemma CallerKnownStays(d: Desk, step: CallerStep)
    requires d.todos.Keys <= d.known
    ensures CallerNext(d, step).todos.Keys <= CallerNext(d, step).known
  {
  }

  lemma {:induction false} KnownStays(s: State, step: Step)
    requires s.desk.todos.Keys <= s.desk.known
    ensures Next(s, step).desk.todos.Keys <= Next(s, step).desk.known
  {
    match step
    case Caller(c) => CallerKnownStays(s.desk, c);
    case Loop(_) =>
    case Pass(_) =>
    case PoolMove(_) =>
  }

  lemma {:induction false} StepKeepsOwn(s: State, step: Step)
    requires RecoveryOwn(s)
    ensures RecoveryOwn(Next(s, step))
  {
    KnownStays(s, step);
    forall id | Own(s.desk, id) ensures Own(Next(s, step).desk, id) {
      OwnStays(s, step, id);
    }
    if Next(s, step).recovery.Resetting? {
      RecoveryListsShrink(s, step);
    }
  }

  /** What the pass has reset or has yet to reset was listed by it as the default user's. */
  lemma RecoveryListsShrink(s: State, step: Step)
    requires RecoveryOwn(s) && Next(s, step).recovery.Resetting?
    ensures forall id | id in Next(s, step).recovery.done || id in Next(s, step).recovery.rest :: Own(s.desk, id)
  {
  }

  lemma {:induction false} LoopKeepsCoverage(s: State, step: LoopStep, id: nat)
    requires CoveredFor(s, id) && !Lossy(Loop(step))
    ensures CoveredFor(LoopNext(s, step), id)
  {
  }

  lemma PassKeepsCoverage(s: State, step: PassStep, id: nat)
    requires CoveredFor(s, id) && RecoveryOwn(s)
    ensures CoveredFor(PassNext(s, step), id)
  {
    if step.RecoverSend? && s.recovery.Sending? && s.recovery.rest != [] {
      assert s.recovery.rest == [s.recovery.rest[0]] + s.recovery.rest[1..];
    }
  }

  lemma {:induction false} CallerKeepsCoverage(s: State, step: CallerStep, id: nat)
    requires CoveredFor(s, id) && !Lossy(Caller(step))
    ensures CoveredFor(Next(s, Caller(step)), id)
  {
  }

  lemma {:induction false} StepKeepsCoverage(s: State, step: Step)
    requires Covered(s) && RecoveryOwn(s) && !Lossy(step)
    ensures Covered(Next(s, step)) && RecoveryOwn(Next(s, step))
  {
    StepKeepsOwn(s, step);
    forall id: nat ensures CoveredFor(Next(s, step), id) {
      assert CoveredFor(s, id);
      match step
      case Caller(c) => CallerKeepsCoverage(s, c, id);
      case Loop(l) => LoopKeepsCoverage(s, l, id);
      case Pass(p) => PassKeepsCoverage(s, p, id);
      case PoolMove(_) =>
    }
  }

  /** While the store and spawning work, every AgentQueued todo is on its way in every reachable state. */
  lemma {:induction false} NoQueuedTodoIsLost(max: nat, steps: seq<Step>)
    requires forall i | 0 <= i < |steps| :: !Lossy(steps[i])
    ensures Covered(Run(Init(max), steps)) && RecoveryOwn(Run(Init(max), steps))
  {
    if steps != [] {
      NoQueuedTodoIsLost(max, steps[..|steps| - 1]);
      StepKeepsCoverage(Run(Init(max), steps[..|steps| - 1]), steps[|steps| - 1]);
    }
  }

  /** The todo a lossy step is about. */
  function Subject(s: State, step: Step): Option<nat> {
    if step.Caller? && step.caller.WriteStatus? then Some(step.caller.id)
    else if s.hand.Free? then None else Some(s.hand.todo)
  }

  lemma {:induction false} LossyTouchesSubjectOnly(s: State, step: Step, id: nat)
    requires CoveredFor(s, id) && Lossy(step) && Subject(s, step) != Some(id)
    ensures CoveredFor(Next(s, step), id)
  {
  }

  /** On its way without the dispatch loop's hand. */
  predicate Elsewhere(s: State, id: nat) {
    OnItsWay(s.(hand := Free), id)
  }

  /** Judged before the step: the todo in hand will be let go while it is, or becomes, queued and is
      nowhere else; or a status is written for a todo that nobody is about to send. */
  predicate Strands(s: State, step: Step) {
    || (step == Loop(CheckFails) && s.hand.Holding? && Queued(s.desk, s.hand.todo) && !Elsewhere(s, s.hand.todo))
    || (step == Loop(MarkFails) && s.hand.Checked? && Queued(s.desk, s.hand.todo) && !Elsewhere(s, s.hand.todo))
    || (step == Loop(SpawnFails) && s.hand.Launching? && s.hand.todo in s.desk.todos && !Elsewhere(s, s.hand.todo))
    || (step.Caller? && step.caller.WriteStatus? && step.caller.id in s.desk.todos && !OnItsWay(s, step.caller.id))
  }

  lemma LossySubject(s: State, step: Step)
    requires Covered(s) && Lossy(step) && Subject(s, step).Some?
    ensures CoveredFor(Next(s, step), Subject(s, step).value) <==> !Strands(s, step)
  {
    assert CoveredFor(s, Subject(s, step).value);
  }

  /** A store failure, a failed spawn or an outside write keeps every queued todo on its way exactly when
      it does not strand the todo it is about. */
  lemma LossyStepKeepsCoverageIff(s: State, step: Step)
    requires Covered(s) && Lossy(step)
    ensures Covered(Next(s, step)) <==> !Strands(s, step)
  {
    forall id: nat | Subject(s, step) != Some(id) ensures CoveredFor(Next(s, step), id) {
      assert CoveredFor(s, id);
      LossyTouchesSubjectOnly(s, step, id);
    }
    if Subject(s, step).Some? {
      LossySubject(s, step);
    }
  }

  lemma RunOne(s: State, step: Step)
    ensures Run(s, [step]) == Next(s, step)
  {
    assert [step][..0] == [];
  }

  lemma {:induction false} RunConcat(s: State, a: seq<Step>, b: seq<Step>)
    ensures Run(s, a + b) == Run(Run(s, a), b)
  {
    if b == [] {
      assert a + b == a;
    } else {
      assert (a + b)[..|a + b| - 1] == a + b[..|b| - 1];
      RunConcat(s, a, b[..|b| - 1]);
    }
  }

  /** A client's edit that sets the status makes a todo queued that nobody will send. */
  lemma {:induction false} OutsideWriteStrandsTodo(max: nat, id: nat, todo: Todo)
    ensures var s := Run(Init(max), [Caller(AddTodo(id, todo)), Caller(WriteStatus(id, AgentQueued))]);
            Queued(s.desk, id) && !OnItsWay(s, id) && !Covered(s)
  {
    var add, write := Caller(AddTodo(id, todo)), Caller(WriteStatus(id, AgentQueued));
    RunTwo(Init(max), add, write);
    var s := Next(Next(Init(max), add), write);
    assert !CoveredFor(s, id);
  }

  lemma RunTwo(s: State, a: Step, b: Step)
    ensures Run(s, [a, b]) == Next(Next(s, a), b)
  {
    assert [a, b][..1] == [a];
    RunOne(s, a);
  }
}
