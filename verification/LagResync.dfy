/** A client that fell behind is sent a snapshot and then the events still buffered for it, which
    predate the snapshot (src/cards/ws.rs). */
module LagResync {
  import opened Wrappers
  import opened Filtering
  import opened Cards
  import opened CardReplay
  import opened CardEvolution

  function About(e: WsMessage): Option<nat> {
    match e
    case NewCard(c) => Some(c.id)
    case CardRefreshed(c) => Some(c.id)
    case CardUpdate(id, status) => Some(id)
    case CardExpired(id) => Some(id)
    case _ => None
  }

  predicate Carries(e: WsMessage) {
    e.NewCard? || e.CardRefreshed?
  }

  predicate Removes(e: WsMessage) {
    e.CardUpdate? || e.CardExpired?
  }

  // ---------- what the log says about the queue ----------

  predicate EntryOk(e: WsMessage, q: Queue) {
    && !e.CardsSync?
    && (About(e).Some? ==> About(e).value in q.used)
    && (e.CardUpdate? ==> e.status != Pending)
    && (Carries(e) ==> e.card.status == Pending)
    && forall x | x in q.cards && About(e) == Some(x.id) ::
      && (Removes(e) ==> x.status != Pending)
      && (Carries(e) ==> x.expiresAt == e.card.expiresAt)
  }

  predicate LogOk(q: Queue) {
    forall e | e in q.log :: EntryOk(e, q)
  }

  /** A card is announced once, before anything else is said about its id. */
  predicate Announced(log: seq<WsMessage>, used: set<nat>) {
    forall j | 0 <= j < |log| && log[j].NewCard? ::
      log[j].card.id !in used && forall k | 0 <= k < j :: About(log[k]) != Some(log[j].card.id)
  }

  lemma EntryStaysOk(e: WsMessage, q: Queue, after: Queue)
    requires EntryOk(e, q) && Evolves(q, after)
    ensures EntryOk(e, after)
  {
    forall x | x in after.cards && About(e) == Some(x.id)
      ensures (Removes(e) ==> x.status != Pending) && (Carries(e) ==> x.expiresAt == e.card.expiresAt)
    {
      assert HasAncestor(x, q.cards);
    }
  }

  lemma OnlyCardWithId(cards: seq<Card>, i: nat, c: Card)
    requires Distinct(cards) && i < |cards| && c.id == cards[i].id
    ensures forall x | x in cards[i := c] && x.id == c.id :: x == c
  {
  }

  lemma ResolveEntries(q: Queue, i: nat, status: CardStatus, payload: Payload, store: Store)
    requires QueueOk(q) && i < |q.cards| && status != Pending
    ensures var after := Resolved(q, i, status, payload, store);
            q.log <= after.log && forall e | e in after.log[|q.log|..] :: EntryOk(e, after) && !e.NewCard?
  {
    var after := Resolved(q, i, status, payload, store);
    assert q.cards[i] in q.cards;
    OnlyCardWithId(q.cards, i, after.cards[i]);
    assert after.log[|q.log|..] == [CardUpdate(q.cards[i].id, status), Badge(CountsOf(after.cards, q.now))];
  }

  lemma RefineEntries(q: Queue, id: nat, text: string, confidence: real)
    requires QueueOk(q) && Actionable(q, id)
    ensures var after := RefineStep(q, id, text, confidence);
            q.log <= after.log && forall e | e in after.log[|q.log|..] :: EntryOk(e, after) && !e.NewCard?
  {
    var after := RefineStep(q, id, text, confidence);
    var i := IndexOf(q.cards, id).value;
    assert q.cards[i] in q.cards;
    OnlyCardWithId(q.cards, i, after.cards[i]);
    assert after.log[|q.log|..] == [CardRefreshed(after.cards[i])];
  }

  lemma {:induction false} ActionEntries(q: Queue, op: Op, id: nat)
    requires QueueOk(q) && Targets(op, id)
    ensures q.log <= Step(q, op).log
    ensures forall e | e in Step(q, op).log[|q.log|..] :: EntryOk(e, Step(q, op)) && !e.NewCard?
  {
    var found := IndexOf(q.cards, id);
    if found.Some? && (op.MarkSent? || q.cards[found.value].status == Pending) {
      var i := found.value;
      match op
      case Approve(_) => ResolveEntries(q, i, Approved, q.cards[i].payload, SetRowStatus(q.store, id, Approved));
      case Dismiss(_) => ResolveEntries(q, i, Dismissed, q.cards[i].payload, SetRowStatus(q.store, id, Dismissed));
      case Edit(_, text) => ResolveEntries(q, i, Approved, WithText(q.cards[i].payload, text),
        SetRowReply(q.store, id, text, Approved));
      case MarkSent(_) => ResolveEntries(q, i, Sent, q.cards[i].payload, SetRowStatus(q.store, id, Sent));
      case Refine(_, text, confidence) => RefineEntries(q, id, text, confidence);
    }
  }

  lemma DueEntry(q: Queue, d: Card)
    requires QueueOk(q) && d in Filter(q.cards, IsDue(q.now))
    ensures EntryOk(CardExpired(d.id), ExpireStep(q))
  {
    FilterMembers(q.cards, IsDue(q.now), d);
    SweepKeepsOk(q.cards, q.now);
    forall x | x in ExpireStep(q).cards && x.id == d.id ensures x.status != Pending {
      var y :| y in q.cards && x == Swept(y, q.now);
      DistinctMembers(q.cards, y, d);
    }
  }

  lemma {:induction false} ExpireEntries(q: Queue)
    requires QueueOk(q)
    ensures q.log <= ExpireStep(q).log
    ensures forall e | e in ExpireStep(q).log[|q.log|..] :: EntryOk(e, ExpireStep(q)) && !e.NewCard?
  {
    var after := ExpireStep(q);
    var due := Filter(q.cards, IsDue(q.now));
    var badges := if due == [] then [] else [Badge(CountsOf(after.cards, q.now))];
    assert after.log[|q.log|..] == ExpiryEvents(due) + badges;
    forall e | e in ExpiryEvents(due) ensures EntryOk(e, after) {
      var i :| 0 <= i < |due| && e == CardExpired(due[i].id);
      DueEntry(q, due[i]);
    }
  }

  lemma PushEntries(q: Queue, card: Card)
    requires QueueOk(q) && card.id !in q.used && card.status == Pending
    ensures var after := PushStep(q, card);
            && after.log == q.log + [Badge(CountsOf(after.cards, q.now)), NewCard(card)]
            && EntryOk(NewCard(card), after)
  {
    var after := PushStep(q, card);
    assert forall x | x in after.cards && x.id == card.id :: x == card;
  }

  lemma {:induction false} StepEntries(q: Queue, op: Op)
    requires QueueOk(q)
    ensures q.log <= Step(q, op).log
    ensures forall e | e in Step(q, op).log[|q.log|..] ::
              EntryOk(e, Step(q, op)) && (e.NewCard? ==> e.card.id !in q.used)
    ensures forall i | |q.log| <= i < |Step(q, op).log| && Step(q, op).log[i].NewCard? ::
              forall k | |q.log| <= k < i :: About(Step(q, op).log[k]).None?
  {
    match op
    case Push(id, silo, payload, expiresAt) =>
      if id !in q.used {
        PushEntries(q, Card(id, silo, payload, Pending, expiresAt, q.now));
      }
    case Approve(id) => ActionEntries(q, op, id);
    case Dismiss(id) => ActionEntries(q, op, id);
    case Edit(id, text) => ActionEntries(q, op, id);
    case Refine(id, text, confidence) => ActionEntries(q, op, id);
    case MarkSent(id) => ActionEntries(q, op, id);
    case ExpireOld => ExpireEntries(q);
    case Advance(seconds) =>
  }

  lemma {:induction false} StepKeepsLog(q: Queue, op: Op, used: set<nat>)
    requires QueueOk(q) && LogOk(q) && Announced(q.log, used) && used <= q.used
    ensures LogOk(Step(q, op)) && Announced(Step(q, op).log, used)
  {
    var after := Step(q, op);
    StepEntries(q, op);
    StepEvolves(q, op);
    forall e | e in after.log ensures EntryOk(e, after) {
      var i :| 0 <= i < |after.log| && after.log[i] == e;
      if i < |q.log| {
        assert q.log[i] == e;
        EntryStaysOk(e, q, after);
      } else {
        assert after.log[|q.log|..][i - |q.log|] == e;
      }
    }
    forall j, k | 0 <= k < j < |after.log| && after.log[j].NewCard?
      ensures About(after.log[k]) != Some(after.log[j].card.id)
    {
      if k < |q.log| {
        assert after.log[k] == q.log[k] && q.log[k] in q.log;
        if j >= |q.log| {
          assert after.log[|q.log|..][j - |q.log|] == after.log[j];
        }
      }
    }
    forall j | 0 <= j < |after.log| && after.log[j].NewCard? ensures after.log[j].card.id !in used {
      if j >= |q.log| {
        assert after.log[|q.log|..][j - |q.log|] == after.log[j];
      }
    }
  }

  lemma {:induction false} RunKeepsLogFrom(q: Queue, ops: seq<Op>, used: set<nat>)
    requires QueueOk(q) && LogOk(q) && Announced(q.log, used) && used <= q.used
    ensures LogOk(Run(q, ops)) && Announced(Run(q, ops).log, used)
  {
    if ops != [] {
      RunKeepsLogFrom(q, ops[..|ops| - 1], used);
      RunKeepsOk(q, ops[..|ops| - 1]);
      StepKeepsLog(Run(q, ops[..|ops| - 1]), ops[|ops| - 1], used);
    }
  }

  lemma {:induction false} RunKeepsLog(q: Queue, ops: seq<Op>)
    requires QueueOk(q) && q.log == []
    ensures LogOk(Run(q, ops)) && Announced(Run(q, ops).log, q.used)
  {
    RunKeepsLogFrom(q, ops, q.used);
  }

  // ---------- one id at a time ----------

  function HasId(id: nat): Card -> bool {
    (c: Card) => c.id == id
  }

  /** The client's copies of one card. */
  function Copies(client: seq<Card>, id: nat): seq<Card> {
    Filter(client, HasId(id))
  }

  /** What an event about a card does to the copies of it. */
  function Touch(copies: seq<Card>, e: WsMessage): seq<Card> {
    match e
    case NewCard(c) => copies + [c]
    case CardUpdate(id, status) =>
      if copies == [] then []
      else if status != Pending then copies[1..]
      else copies[0 := copies[0].(status := status)]
    case CardExpired(id) => []
    case CardRefreshed(c) =>
      if copies != [] then [c] + copies[1..] else if c.status == Pending then [c] else []
    case _ => copies
  }

  function TouchAll(copies: seq<Card>, events: seq<WsMessage>, id: nat): seq<Card> {
    if events == [] then copies
    else
      var before := TouchAll(copies, events[..|events| - 1], id);
      var e := events[|events| - 1];
      if About(e) == Some(id) then Touch(before, e) else before
  }

  lemma CopiesAt(client: seq<Card>, i: nat, id: nat)
    requires i < |client| && client[i].id == id && forall k | 0 <= k < i :: client[k].id != id
    ensures Copies(client, id) == [client[i]] + Copies(client[i + 1..], id)
  {
    FilterSplit(client, i, HasId(id));
    FilterNone(client[..i], HasId(id));
  }

  lemma UpdateCopies(client: seq<Card>, i: nat, c: Card, id: nat)
    requires i < |client| && client[i].id == c.id && forall k | 0 <= k < i :: client[k].id != c.id
    ensures id == c.id ==> Copies(client, id) != []
    ensures Copies(client[i := c], id) == if id == c.id then [c] + Copies(client, id)[1..] else Copies(client, id)
  {
    var changed := client[i := c];
    assert changed[..i] == client[..i] && changed[i + 1..] == client[i + 1..];
    if id == c.id {
      CopiesAt(client, i, id);
      CopiesAt(changed, i, id);
    } else {
      FilterSplit(client, i, HasId(id));
      FilterSplit(changed, i, HasId(id));
    }
  }

  lemma WithoutCopies(client: seq<Card>, i: nat, id: nat)
    requires i < |client| && forall k | 0 <= k < i :: client[k].id != client[i].id
    ensures id == client[i].id ==> Copies(client, id) != []
    ensures Copies(Without(client, i), id) == if id == client[i].id then Copies(client, id)[1..] else Copies(client, id)
  {
    FilterConcat(client[..i], client[i + 1..], HasId(id));
    FilterSplit(client, i, HasId(id));
    if id == client[i].id {
      CopiesAt(client, i, id);
      FilterNone(client[..i], HasId(id));
    }
  }

  lemma ApplyTouches(client: seq<Card>, e: WsMessage, id: nat)
    requires !e.CardsSync? && (e.CardUpdate? ==> e.status != Pending)
    ensures Copies(Apply(client, e), id) == if About(e) == Some(id) then Touch(Copies(client, id), e)
            else Copies(client, id)
  {
    match e
    case NewCard(c) =>
      FilterConcat(client, [c], HasId(id));
      FilterOne(c, HasId(id));
    case CardUpdate(x, status) =>
      var i := IndexOf(client, x);
      if i.Some? {
        WithoutCopies(client, i.value, id);
      } else if id == x {
        FilterNone(client, HasId(id));
      }
    case CardExpired(x) =>
      if x == id {
        SubsetFilter(client, NotId(x));
        FilterNone(Filter(client, NotId(x)), HasId(id));
      } else {
        FilterBoth(client, NotId(x), HasId(id), HasId(id));
      }
    case CardRefreshed(c) =>
      var i := IndexOf(client, c.id);
      if i.Some? {
        UpdateCopies(client, i.value, c, id);
      } else {
        FilterConcat([c], client, HasId(id));
        FilterOne(c, HasId(id));
        if id == c.id {
          FilterNone(client, HasId(id));
        }
      }
    case Badge(counts) =>
    case Ping =>
  }

  predicate Plain(events: seq<WsMessage>) {
    forall e | e in events :: !e.CardsSync? && (e.CardUpdate? ==> e.status != Pending)
      && (Carries(e) ==> e.card.status == Pending)
  }

  lemma {:induction false} ApplyAllTouches(client: seq<Card>, events: seq<WsMessage>, id: nat)
    requires Plain(events)
    ensures Copies(ApplyAll(client, events), id) == TouchAll(Copies(client, id), events, id)
  {
    if events != [] {
      var front, e := events[..|events| - 1], events[|events| - 1];
      assert e in events && forall x | x in front :: x in events;
      ApplyAllTouches(client, front, id);
      ApplyTouches(ApplyAll(client, front), e, id);
    }
  }

  // ---------- replaying the past on top of the present ----------

  predicate Mentions(events: seq<WsMessage>, id: nat) {
    exists e :: e in events && About(e) == Some(id)
  }

  lemma {:induction false} Unmentioned(copies: seq<Card>, events: seq<WsMessage>, id: nat)
    requires !Mentions(events, id)
    ensures TouchAll(copies, events, id) == copies
  {
    if events != [] {
      var front := events[..|events| - 1];
      assert !Mentions(front, id) by {
        assert forall e | e in front :: e in events;
      }
      assert events[|events| - 1] in events;
      Unmentioned(copies, front, id);
    }
  }

  predicate Announces(events: seq<WsMessage>, id: nat) {
    exists e :: e in events && e.NewCard? && e.card.id == id
  }

  /** Two histories of a card, with at most one copy each, merge at the first event about it. */
  lemma {:induction false} HistoriesMerge(a: seq<Card>, b: seq<Card>, events: seq<WsMessage>, id: nat)
    requires Plain(events) && Announced(events, {})
    requires |a| <= 1 && |b| <= 1
    requires Announces(events, id) ==> a == [] && b == []
    ensures |TouchAll(a, events, id)| <= 1 && |TouchAll(b, events, id)| <= 1
    ensures TouchAll(a, events, id) == TouchAll(b, events, id) || TouchAll(a, events, id) == a
  {
    if events == [] {
    } else {
      var front, e := events[..|events| - 1], events[|events| - 1];
      assert e in events && forall x | x in front :: x in events;
      HistoriesMerge(a, b, front, id);
      if e.NewCard? && e.card.id == id {
        assert !Mentions(front, id);
        Unmentioned(a, front, id);
        Unmentioned(b, front, id);
      }
    }
  }

  lemma CopiesMembers(client: seq<Card>, id: nat, c: Card)
    ensures c in Copies(client, id) <==> c in client && c.id == id
  {
    FilterMembers(client, HasId(id), c);
  }

  lemma DistinctCopies(client: seq<Card>, id: nat)
    requires Distinct(client)
    ensures |Copies(client, id)| <= 1
  {
    FilterDistinct(client, HasId(id));
    var copies := Copies(client, id);
    assert |copies| > 1 ==> copies[0].id != copies[1].id;
    forall k | 0 <= k < |copies| ensures copies[k].id == id {
      CopiesMembers(client, id, copies[k]);
    }
  }

  lemma CopiesDistinct(client: seq<Card>)
    requires forall id: nat :: |Copies(client, id)| <= 1
    ensures Distinct(client)
  {
    forall i, j | 0 <= i < j < |client| ensures client[i].id != client[j].id {
      var p := HasId(client[i].id);
      FilterSplit(client, i, p);
      FilterMembers(client[i + 1..], p, client[j]);
      assert client[j] == client[i + 1..][j - i - 1];
      assert |Copies(client, client[i].id)| <= 1;
    }
  }

  // ---------- order ----------

  function Among(ids: set<nat>): Card -> bool {
    (c: Card) => c.id in ids
  }

  function IdsOf(cards: seq<Card>): (r: seq<nat>)
    ensures |r| == |cards| && forall i | 0 <= i < |r| :: r[i] == cards[i].id
  {
    seq(|cards|, i requires 0 <= i < |cards| => cards[i].id)
  }

  lemma {:induction false} ApplyKeepsOrder(client: seq<Card>, e: WsMessage, ids: set<nat>)
    requires !e.CardsSync? && (e.CardUpdate? ==> e.status != Pending)
    requires e.CardRefreshed? || About(e).None? || About(e).value !in ids
    requires forall id | id in ids :: IndexOf(client, id).Some?
    ensures IdsOf(Filter(Apply(client, e), Among(ids))) == IdsOf(Filter(client, Among(ids)))
  {
    var p := Among(ids);
    match e
    case NewCard(c) =>
      FilterConcat(client, [c], p);
      FilterOne(c, p);
    case CardUpdate(x, status) =>
      var i := IndexOf(client, x);
      if i.Some? {
        RemovalKeepsOrder(client, i.value, ids);
      }
    case CardExpired(x) => FilterBoth(client, NotId(x), p, p);
    case CardRefreshed(c) =>
      var i := IndexOf(client, c.id);
      if i.Some? {
        UpdateKeepsOrder(client, i.value, c, ids);
      } else {
        FilterConcat([c], client, p);
        FilterOne(c, p);
      }
    case Badge(counts) =>
    case Ping =>
  }

  lemma RemovalKeepsOrder(client: seq<Card>, i: nat, ids: set<nat>)
    requires i < |client| && client[i].id !in ids
    ensures Filter(Without(client, i), Among(ids)) == Filter(client, Among(ids))
  {
    FilterSplit(client, i, Among(ids));
    FilterConcat(client[..i], client[i + 1..], Among(ids));
  }

  lemma UpdateKeepsOrder(client: seq<Card>, i: nat, c: Card, ids: set<nat>)
    requires i < |client| && c.id == client[i].id
    ensures IdsOf(Filter(client[i := c], Among(ids))) == IdsOf(Filter(client, Among(ids)))
  {
    FilterSplit(client, i, Among(ids));
    FilterSplit(client[i := c], i, Among(ids));
    assert client[i := c][..i] == client[..i];
    assert client[i := c][i + 1..] == client[i + 1..];
  }

  lemma {:induction false} OrderShowsOne(client: seq<Card>, start: seq<Card>, ids: set<nat>, id: nat)
    requires IdsOf(Filter(client, Among(ids))) == IdsOf(Filter(start, Among(ids)))
    requires id in ids && id in IdsOf(start)
    ensures IndexOf(client, id).Some?
  {
    var i :| 0 <= i < |start| && IdsOf(start)[i] == id;
    var kept, held := Filter(client, Among(ids)), Filter(start, Among(ids));
    FilterMembers(start, Among(ids), start[i]);
    var j :| 0 <= j < |held| && held[j] == start[i];
    assert |kept| == |IdsOf(kept)| == |held|;
    assert IdsOf(held)[j] == IdsOf(kept)[j] == id;
    FilterMembers(client, Among(ids), kept[j]);
  }

  lemma {:induction false} OrderShowsPresence(client: seq<Card>, start: seq<Card>, ids: set<nat>)
    requires IdsOf(Filter(client, Among(ids))) == IdsOf(Filter(start, Among(ids)))
    requires forall id | id in ids :: id in IdsOf(start)
    ensures forall id | id in ids :: IndexOf(client, id).Some?
  {
    forall id | id in ids ensures IndexOf(client, id).Some? {
      OrderShowsOne(client, start, ids, id);
    }
  }

  /** Events that only refresh the cards `ids` leave these in place. */
  lemma {:induction false} ReplayKeepsOrder(start: seq<Card>, events: seq<WsMessage>, ids: set<nat>)
    requires Plain(events)
    requires forall id | id in ids :: id in IdsOf(start)
    requires forall e | e in events :: e.CardRefreshed? || About(e).None? || About(e).value !in ids
    ensures IdsOf(Filter(ApplyAll(start, events), Among(ids))) == IdsOf(Filter(start, Among(ids)))
  {
    if events != [] {
      var front, e := events[..|events| - 1], events[|events| - 1];
      assert e in events && forall x | x in front :: x in events;
      ReplayKeepsOrder(start, front, ids);
      OrderShowsPresence(ApplyAll(start, front), start, ids);
      ApplyKeepsOrder(ApplyAll(start, front), e, ids);
    }
  }

  // ---------- the resynchronised client ----------

  /** Some buffered announcement is of a card the snapshot already holds. */
  predicate Redelivers(q: Queue, from: nat) {
    exists i :: from <= i < |q.log| && q.log[i].NewCard? && q.log[i].card.id in IdsOf(Visible(q.cards, q.now))
  }

  ghost predicate SameCopies(client: seq<Card>, a: seq<Card>, b: seq<Card>) {
    forall id: nat :: |Copies(client, id)| <= 1 && (Copies(client, id) == Copies(a, id)
      || Copies(client, id) == Copies(b, id))
  }

  lemma CopiesBelong(client: seq<Card>, a: seq<Card>, b: seq<Card>, q: Queue)
    requires QueueOk(q) && Agrees(a, q) && Agrees(b, q) && SameCopies(client, a, b)
    ensures Distinct(client) && forall c | c in client :: c.status == Pending && c in q.cards
  {
    CopiesDistinct(client);
    forall c | c in client ensures c.status == Pending && c in q.cards {
      CopiesMembers(client, c.id, c);
      CopiesMembers(a, c.id, c);
      CopiesMembers(b, c.id, c);
    }
  }

  lemma SameIdsSameCards(a: seq<Card>, b: seq<Card>, cards: seq<Card>)
    requires Distinct(cards) && IdsOf(a) == IdsOf(b)
    requires (forall c | c in a :: c in cards) && (forall c | c in b :: c in cards)
    ensures a == b
  {
    assert |a| == |IdsOf(a)| == |b|;
    forall i | 0 <= i < |a| ensures a[i] == b[i] {
      assert IdsOf(a)[i] == IdsOf(b)[i];
      assert a[i] in a && b[i] in b;
      DistinctMembers(cards, a[i], b[i]);
    }
  }

  lemma CopiesAgree(client: seq<Card>, q: Queue, ids: set<nat>)
    requires QueueOk(q) && Distinct(client) && forall c | c in client :: c.status == Pending && c in q.cards
    requires forall id :: id in ids <==> id in IdsOf(Visible(q.cards, q.now))
    requires IdsOf(Filter(client, Among(ids))) == IdsOf(Visible(q.cards, q.now))
    ensures Agrees(client, q)
  {
    var shown := Visible(q.cards, q.now);
    SubsetFilter(q.cards, Shown(q.now));
    forall c | c in client ensures Unexpired(q.now)(c) == Among(ids)(c) {
      if c.id in ids {
        var i :| 0 <= i < |shown| && IdsOf(shown)[i] == c.id;
        assert shown[i] in shown;
        DistinctMembers(q.cards, c, shown[i]);
      }
    }
    FilterAgrees(client, Unexpired(q.now), Among(ids));
    SubsetFilter(client, Among(ids));
    SameIdsSameCards(Filter(client, Among(ids)), shown, q.cards);
  }

  lemma TailFacts(log: seq<WsMessage>, from: nat, used: set<nat>)
    requires from <= |log| && Announced(log, used) && Plain(log)
    ensures Plain(log[..from]) && Plain(log[from..])
    ensures Announced(log[..from], {}) && Announced(log[from..], {})
    ensures forall id :: Announces(log[from..], id) ==> id !in used && !Mentions(log[..from], id)
    ensures forall id :: Announces(log[..from], id) ==> id !in used
  {
    var tail := log[from..];
    forall id | Announces(tail, id) ensures id !in used && !Mentions(log[..from], id) {
      var e :| e in tail && e.NewCard? && e.card.id == id;
      var j :| 0 <= j < |tail| && tail[j] == e;
      assert log[from + j] == e;
    }
  }

  lemma SnapshotCopies(q: Queue, id: nat)
    requires QueueOk(q)
    ensures |Copies(Visible(q.cards, q.now), id)| <= 1
    ensures id !in q.used ==> Copies(Visible(q.cards, q.now), id) == []
    ensures id !in IdsOf(Visible(q.cards, q.now)) ==> Copies(Visible(q.cards, q.now), id) == []
  {
    var shown := Visible(q.cards, q.now);
    FilterDistinct(q.cards, Shown(q.now));
    SubsetFilter(q.cards, Shown(q.now));
    DistinctCopies(shown, id);
    SubsetFilter(shown, HasId(id));
    if Copies(shown, id) != [] {
      var c := Copies(shown, id)[0];
      assert c in Copies(shown, id);
      var i :| 0 <= i < |shown| && shown[i] == c;
      assert IdsOf(shown)[i] == id;
    }
  }

  /** One card, seen by a client that replays all of `log` and by one that replays its tail over `shown`. */
  lemma {:induction false} TailMerges(
    start: seq<Card>, shown: seq<Card>, log: seq<WsMessage>, from: nat, used: set<nat>, id: nat)
    requires from <= |log| && Plain(log) && Announced(log, used)
    requires |Copies(start, id)| <= 1 && |Copies(shown, id)| <= 1
    requires id !in used ==> Copies(start, id) == []
    requires Announces(log[from..], id) ==> Copies(shown, id) == []
    ensures var copies := Copies(ApplyAll(shown, log[from..]), id);
            |copies| <= 1 && (copies == Copies(ApplyAll(start, log), id) || copies == Copies(shown, id))
  {
    var head, tail := log[..from], log[from..];
    var middle := ApplyAll(start, head);
    TailFacts(log, from, used);
    HeadCopies(start, head, used, id);
    HistoriesMerge(Copies(shown, id), Copies(middle, id), tail, id);
    ApplyAllTouches(shown, tail, id);
    ApplyAllTouches(middle, tail, id);
    assert ApplyAll(start, log) == ApplyAll(middle, tail) by {
      assert head + tail == log;
      ApplyAllConcat(start, head, tail);
    }
  }

  lemma HeadCopies(start: seq<Card>, head: seq<WsMessage>, used: set<nat>, id: nat)
    requires Plain(head) && Announced(head, {}) && (Announces(head, id) ==> id !in used)
    requires |Copies(start, id)| <= 1 && (id !in used ==> Copies(start, id) == [])
    ensures |Copies(ApplyAll(start, head), id)| <= 1
    ensures id !in used && !Mentions(head, id) ==> Copies(ApplyAll(start, head), id) == []
  {
    ApplyAllTouches(start, head, id);
    HistoriesMerge(Copies(start, id), Copies(start, id), head, id);
    if !Mentions(head, id) {
      Unmentioned(Copies(start, id), head, id);
    }
  }

  lemma PlainLog(q: Queue)
    requires LogOk(q)
    ensures Plain(q.log)
  {
    forall e | e in q.log
      ensures !e.CardsSync? && (e.CardUpdate? ==> e.status != Pending) && (Carries(e) ==> e.card.status == Pending)
    {
      assert EntryOk(e, q);
    }
  }

  /** No event in the log removes a card that is still pending. */
  lemma TailSparesVisible(q: Queue, from: nat, ids: set<nat>)
    requires LogOk(q) && from <= |q.log| && !Redelivers(q, from)
    requires forall id :: id in ids <==> id in IdsOf(Visible(q.cards, q.now))
    ensures forall e | e in q.log[from..] :: e.CardRefreshed? || About(e).None? || About(e).value !in ids
  {
    var shown := Visible(q.cards, q.now);
    SubsetFilter(q.cards, Shown(q.now));
    forall e | e in q.log[from..] ensures e.CardRefreshed? || About(e).None? || About(e).value !in ids {
      var j :| 0 <= j < |q.log[from..]| && q.log[from..][j] == e;
      assert q.log[from + j] == e;
      assert EntryOk(e, q);
      if About(e).Some? && About(e).value in ids {
        var i :| 0 <= i < |shown| && IdsOf(shown)[i] == About(e).value;
        assert shown[i] in shown;
      }
    }
  }

  lemma {:induction false} ResyncAgrees(first: Queue, ops: seq<Op>, from: nat)
    requires QueueOk(first) && first.log == [] && from <= |Run(first, ops).log| && !Redelivers(Run(first, ops), from)
    ensures Agrees(ApplyAll(Visible(Run(first, ops).cards, Run(first, ops).now), Run(first, ops).log[from..]),
            Run(first, ops))
  {
    var q := Run(first, ops);
    var old0, shown := Visible(first.cards, first.now), Visible(q.cards, q.now);
    var client, ideal := ApplyAll(shown, q.log[from..]), ApplyAll(old0, q.log);
    RunKeepsOk(first, ops);
    RunKeepsLog(first, ops);
    PlainLog(q);
    SnapshotAgrees(q);
    SnapshotAgrees(first);
    RunAgrees(old0, first, ops);
    assert q.log[|first.log|..] == q.log;
    forall id: nat
      ensures |Copies(client, id)| <= 1 && (Copies(client, id) == Copies(ideal, id)
              || Copies(client, id) == Copies(shown, id))
    {
      assert id !in IdsOf(shown) || !Announces(q.log[from..], id);
      SnapshotCopies(first, id);
      SnapshotCopies(q, id);
      TailMerges(old0, shown, q.log, from, first.used, id);
    }
    CopiesBelong(client, ideal, shown, q);
    var ids := set id | id in IdsOf(shown);
    TailSparesVisible(q, from, ids);
    TailFacts(q.log, from, first.used);
    assert forall c | c in shown :: c.id in IdsOf(shown);
    FilterAll(shown, Among(ids));
    ReplayKeepsOrder(shown, q.log[from..], ids);
    CopiesAgree(client, q, ids);
  }

  // ---------- a redelivered card shows twice ----------

  lemma {:induction false} RedeliveredTwice(copies: seq<Card>, events: seq<WsMessage>, id: nat)
    requires forall e | e in events && About(e) == Some(id) :: Carries(e)
    ensures |TouchAll(copies, events, id)| >= |copies| + if Announces(events, id) then 1 else 0
    ensures forall c | c in TouchAll(copies, events, id) ::
              c in copies || exists e :: e in events && Carries(e) && e.card == c && c.id == id
  {
    if events != [] {
      var front, e := events[..|events| - 1], events[|events| - 1];
      assert e in events && forall x | x in front :: x in events;
      assert forall x | x in events :: x in front || x == e;
      RedeliveredTwice(copies, front, id);
    }
  }

  lemma TwoCopiesDiffer(client: seq<Card>, shown: seq<Card>, now: int, id: nat)
    requires |Copies(client, id)| >= 2 && |Copies(shown, id)| <= 1
    requires forall c | c in Copies(client, id) :: !IsExpired(c, now)
    ensures Filter(client, Unexpired(now)) != shown
  {
    FilterAll(Copies(client, id), Unexpired(now));
    FilterCommutes(client, HasId(id), Unexpired(now));
  }

  /** Every copy of a shown card that the tail produces carries the card's own expiry. */
  lemma TailCopies(q: Queue, from: nat, held: Card)
    requires LogOk(q) && from <= |q.log| && held in Visible(q.cards, q.now)
    ensures Plain(q.log[from..])
    ensures forall e | e in q.log[from..] && About(e) == Some(held.id) ::
              Carries(e) && e.card.expiresAt == held.expiresAt
  {
    FilterMembers(q.cards, Shown(q.now), held);
    PlainLog(q);
    assert forall e | e in q.log[from..] :: e in q.log;
    forall e | e in q.log[from..] && About(e) == Some(held.id) ensures Carries(e)
      && e.card.expiresAt == held.expiresAt {
      assert EntryOk(e, q);
    }
  }

  lemma {:induction false} RedeliveredCopies(q: Queue, from: nat, i: nat, held: Card)
    requires QueueOk(q) && LogOk(q) && from <= i < |q.log|
    requires q.log[i].NewCard? && q.log[i].card.id == held.id && held in Visible(q.cards, q.now)
    ensures var copies := Copies(ApplyAll(Visible(q.cards, q.now), q.log[from..]), held.id);
            |copies| >= 2 && forall c | c in copies :: !IsExpired(c, q.now)
    ensures |Copies(Visible(q.cards, q.now), held.id)| == 1
  {
    var shown, id, tail := Visible(q.cards, q.now), held.id, q.log[from..];
    TailCopies(q, from, held);
    assert tail[i - from] == q.log[i];
    assert Announces(tail, id);
    RedeliveredTwice(Copies(shown, id), tail, id);
    CopiesMembers(shown, id, held);
    ApplyAllTouches(shown, tail, id);
    SnapshotCopies(q, id);
    FilterMembers(q.cards, Shown(q.now), held);
    forall c | c in Copies(ApplyAll(shown, tail), id) ensures !IsExpired(c, q.now) {
      CopiesMembers(shown, id, c);
      FilterMembers(q.cards, Shown(q.now), c);
    }
  }

  lemma {:induction false} RedeliveryShows(q: Queue, from: nat, i: nat)
    requires QueueOk(q) && LogOk(q) && from <= i < |q.log|
    requires q.log[i].NewCard? && q.log[i].card.id in IdsOf(Visible(q.cards, q.now))
    ensures Filter(ApplyAll(Visible(q.cards, q.now), q.log[from..]), Unexpired(q.now)) != Visible(q.cards, q.now)
  {
    var shown, id := Visible(q.cards, q.now), q.log[i].card.id;
    var k :| 0 <= k < |shown| && IdsOf(shown)[k] == id;
    RedeliveredCopies(q, from, i, shown[k]);
    TwoCopiesDiffer(ApplyAll(shown, q.log[from..]), shown, q.now, id);
  }

  /** After falling behind, the client's unexpired cards are `pending()` exactly when no buffered
      announcement is of a card that is still shown. */
  lemma {:induction false} LagResyncIff(stale: seq<Card>, first: Queue, ops: seq<Op>, from: nat)
    requires QueueOk(first) && first.log == [] && from <= |Run(first, ops).log|
    ensures var q := Run(first, ops);
            var seen := [CardsSync(Visible(q.cards, q.now))] + q.log[from..];
            Filter(ApplyAll(stale, seen), Unexpired(q.now)) == Visible(q.cards, q.now) <==> !Redelivers(q, from)
  {
    var q := Run(first, ops);
    var sync := CardsSync(Visible(q.cards, q.now));
    SyncReplaces(stale, q);
    ApplyAllConcat(stale, [sync], q.log[from..]);
    ApplyOne(stale, sync);
    if Redelivers(q, from) {
      var i :| from <= i < |q.log| && q.log[i].NewCard? && q.log[i].card.id in IdsOf(Visible(q.cards, q.now));
      RunKeepsOk(first, ops);
      RunKeepsLog(first, ops);
      RedeliveryShows(q, from, i);
    } else {
      ResyncAgrees(first, ops, from);
    }
  }

  /** Once back in step, the client stays in step through every later run. */
  lemma {:induction false} ReplayAfterLag(stale: seq<Card>, first: Queue, ops: seq<Op>, from: nat, later: seq<Op>)
    requires QueueOk(first) && first.log == [] && from <= |Run(first, ops).log| && !Redelivers(Run(first, ops), from)
    ensures var q := Run(first, ops);
            var end := Run(q, later);
            && q.log <= end.log
            && var seen := [CardsSync(Visible(q.cards, q.now))] + end.log[from..];
               Filter(ApplyAll(stale, seen), Unexpired(end.now)) == Visible(end.cards, end.now)
  {
    var q := Run(first, ops);
    var shown := Visible(q.cards, q.now);
    var end := Run(q, later);
    RunKeepsOk(first, ops);
    ResyncAgrees(first, ops, from);
    RunAgrees(ApplyAll(shown, q.log[from..]), q, later);
    TailConcat(q.log, end.log, from);
    ApplyAllConcat(shown, q.log[from..], end.log[|q.log|..]);
    SyncReplaces(stale, q);
    ApplyAllConcat(stale, [CardsSync(shown)], end.log[from..]);
    ApplyOne(stale, CardsSync(shown));
  }

  // ---------- a failing run ----------

  function LastingCard(id: nat): Card {
    Card(id, Messages, Other("action", "x"), Pending, None, 0)
  }

  function Pushes(n: nat): (ops: seq<Op>)
    ensures |ops| == n && forall i | 0 <= i < n :: ops[i] == Push(i, Messages, Other("action", "x"), None)
  {
    seq(n, (i: nat) => Push(i, Messages, Other("action", "x"), None))
  }

  const EMPTY_QUEUE: Queue := Queue([], map[], [], 0, {})

  /** `n` lasting cards were pushed, the newest one last. */
  predicate Pushed(q: Queue, n: nat) {
    && q.now == 0 && |q.log| == 2 * n && (forall id | id in q.used :: id < n)
    && (n > 0 ==> q.log[2 * n - 1] == NewCard(LastingCard(n - 1)) && LastingCard(n - 1) in q.cards)
  }

  lemma PushedOneMore(q: Queue, n: nat)
    requires Pushed(q, n)
    ensures Pushed(Step(q, Push(n, Messages, Other("action", "x"), None)), n + 1)
  {
    PushedLast(q, n);
    PushLogs(q, LastingCard(n));
  }

  lemma {:induction false} PushRun(n: nat)
    ensures Pushed(Run(EMPTY_QUEUE, Pushes(n)), n)
  {
    if n > 0 {
      assert Pushes(n)[..n - 1] == Pushes(n - 1);
      PushRun(n - 1);
      PushedOneMore(Run(EMPTY_QUEUE, Pushes(n - 1)), n - 1);
    }
  }

  lemma PushedLast(q: Queue, id: nat)
    requires q.now == 0 && id !in q.used
    ensures Step(q, Push(id, Messages, Other("action", "x"), None)) == PushStep(q, LastingCard(id))
  {
  }

  lemma PushLogs(q: Queue, card: Card)
    ensures var after := PushStep(q, card);
            && |after.log| == |q.log| + 2 && after.log[|q.log| + 1] == NewCard(card) && card in after.cards
            && after.used == q.used + {card.id} && after.now == q.now
  {
    assert PushStep(q, card).cards[|q.cards|] == card;
  }

  lemma {:induction false} PushRunShows(n: nat)
    requires n > 0
    ensures var q, card := Run(EMPTY_QUEUE, Pushes(n)), LastingCard(n - 1);
            && QueueOk(q) && LogOk(q) && |q.log| == 2 * n && q.log[2 * n - 1] == NewCard(card)
            && card in Visible(q.cards, q.now)
  {
    var q := Run(EMPTY_QUEUE, Pushes(n));
    RunKeepsOk(EMPTY_QUEUE, Pushes(n));
    RunKeepsLog(EMPTY_QUEUE, Pushes(n));
    PushRun(n);
    FilterMembers(q.cards, Shown(q.now), LastingCard(n - 1));
  }

  lemma {:induction false} NewestShowsTwice(n: nat, from: nat)
    requires from < 2 * n
    ensures var q := Run(EMPTY_QUEUE, Pushes(n));
            && |q.log| == 2 * n
            && |Copies(ApplyAll(Visible(q.cards, q.now), q.log[from..]), n - 1)| >= 2
            && |Copies(Visible(q.cards, q.now), n - 1)| == 1
  {
    PushRunShows(n);
    RedeliveredCopies(Run(EMPTY_QUEUE, Pushes(n)), from, 2 * n - 1, LastingCard(n - 1));
  }

  /** A client that slept while more cards were pushed than the channel's 256 events can hold: the newest
      card is in the snapshot and announced again by what the channel still held, and shows twice. */
  lemma {:induction false} DuplicateAfterLag(n: nat)
    requires n > 128
    ensures var q := Run(EMPTY_QUEUE, Pushes(n));
            && |q.log| == 2 * n
            && var client := ApplyAll(Visible(q.cards, q.now), q.log[2 * n - 256..]);
               |Copies(client, n - 1)| >= 2 && |Copies(Visible(q.cards, q.now), n - 1)| == 1
  {
    NewestShowsTwice(n, 2 * n - 256);
  }
}
