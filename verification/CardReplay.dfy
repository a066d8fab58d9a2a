/** A client that starts from a snapshot and folds in the broadcast events
    (src/cards/ws.rs, ios/Sources/AIAssistClientLib/Networking/CardWebSocket.swift). */
module CardReplay {
  import opened Filtering
  import opened Cards

  function Without(cards: seq<Card>, i: nat): seq<Card>
    requires i < |cards|
  {
    cards[..i] + cards[i + 1..]
  }

  function Apply(client: seq<Card>, e: WsMessage): seq<Card> {
    match e
    case NewCard(card) => client + [card]
    case CardUpdate(id, status) =>
      var i := IndexOf(client, id);
      if i.None? then client
      else if status != Pending then Without(client, i.value)
      else client[i.value := client[i.value].(status := status)]
    case CardExpired(id) => Filter(client, NotId(id))
    case CardsSync(cards) => Filter(cards, IsPending())
    case CardRefreshed(card) =>
      var i := IndexOf(client, card.id);
      if i.Some? then client[i.value := card] else if card.status == Pending then [card] + client else client
    case Badge(counts) => client
    case Ping => client
  }

  function ApplyAll(client: seq<Card>, events: seq<WsMessage>): seq<Card> {
    if events == [] then client else Apply(ApplyAll(client, events[..|events| - 1]), events[|events| - 1])
  }

  lemma {:induction false} ApplyAllConcat(client: seq<Card>, a: seq<WsMessage>, b: seq<WsMessage>)
    ensures ApplyAll(client, a + b) == ApplyAll(ApplyAll(client, a), b)
  {
    if b == [] {
      assert a + b == a;
    } else {
      assert (a + b)[..|a + b| - 1] == a + b[..|b| - 1];
      ApplyAllConcat(client, a, b[..|b| - 1]);
    }
  }

  lemma ApplyOne(client: seq<Card>, e: WsMessage)
    ensures ApplyAll(client, [e]) == Apply(client, e)
  {
    assert [e][..0] == [];
  }

  lemma ApplyTwo(client: seq<Card>, e: WsMessage, f: WsMessage)
    ensures ApplyAll(client, [e, f]) == Apply(Apply(client, e), f)
  {
    assert [e, f][..1] == [e];
    ApplyOne(client, e);
  }

  // ---------- every run keeps the ids apart ----------

  predicate QueueOk(q: Queue) {
    Distinct(q.cards) && forall c | c in q.cards :: c.id in q.used
  }

  lemma DistinctMembers(cards: seq<Card>, a: Card, b: Card)
    requires Distinct(cards) && a in cards && b in cards && a.id == b.id
    ensures a == b
  {
  }

  lemma {:induction false} FilterDistinct(cards: seq<Card>, p: Card -> bool)
    requires Distinct(cards)
    ensures Distinct(Filter(cards, p))
  {
    if cards != [] {
      var front, c := cards[..|cards| - 1], cards[|cards| - 1];
      FilterDistinct(front, p);
      forall x | x in Filter(front, p) ensures x.id != c.id {
        FilterMembers(front, p, x);
      }
    }
  }

  lemma SubsetFilter(cards: seq<Card>, p: Card -> bool)
    ensures forall x | x in Filter(cards, p) :: x in cards && p(x)
    ensures forall x | x in cards && p(x) :: x in Filter(cards, p)
  {
    forall x ensures x in Filter(cards, p) <==> x in cards && p(x) {
      FilterMembers(cards, p, x);
    }
  }

  lemma {:induction false} SweptAt(cards: seq<Card>, now: int)
    ensures |SweptAll(cards, now)| == |cards|
    ensures forall i | 0 <= i < |cards| :: SweptAll(cards, now)[i] == Swept(cards[i], now)
  {
    if cards != [] {
      SweptAt(cards[..|cards| - 1], now);
    }
  }

  lemma {:induction false} DropNone(cards: seq<Card>)
    ensures DropResolved(cards, 0) == cards
  {
    if cards != [] {
      DropNone(cards[1..]);
    }
  }

  lemma {:induction false} DropKeepsDistinct(cards: seq<Card>, n: nat)
    requires Distinct(cards)
    ensures Distinct(DropResolved(cards, n))
    ensures forall c | c in DropResolved(cards, n) :: c in cards
    ensures forall c | c in cards && c.status == Pending :: c in DropResolved(cards, n)
  {
    if cards != [] {
      assert cards == [cards[0]] + cards[1..];
      DropKeepsDistinct(cards[1..], if cards[0].status != Pending && n > 0 then n - 1 else n);
    }
  }

  lemma SweptKeepsOk(cards: seq<Card>, now: int)
    requires Distinct(cards)
    ensures Distinct(SweptAll(cards, now))
    ensures forall c | c in SweptAll(cards, now) :: exists x :: x in cards && c == Swept(x, now)
    ensures forall c | c in cards && IsShown(c, now) :: c in SweptAll(cards, now)
  {
    SweptAt(cards, now);
    var swept := SweptAll(cards, now);
    forall c | c in cards && IsShown(c, now) ensures c in swept {
      var i :| 0 <= i < |cards| && cards[i] == c;
      assert swept[i] == c;
    }
    forall c | c in swept ensures exists x :: x in cards && c == Swept(x, now) {
      var i :| 0 <= i < |swept| && swept[i] == c;
      assert cards[i] in cards;
    }
  }

  lemma PruneKeepsOk(cards: seq<Card>)
    requires Distinct(cards)
    ensures Distinct(Pruned(cards))
    ensures forall c | c in Pruned(cards) :: c in cards
    ensures forall c | c in cards && c.status == Pending :: c in Pruned(cards)
  {
    DropKeepsDistinct(cards, Surplus(cards));
  }

  lemma SweepKeepsOk(cards: seq<Card>, now: int)
    requires Distinct(cards)
    ensures Distinct(Pruned(SweptAll(cards, now)))
    ensures forall c | c in Pruned(SweptAll(cards, now)) :: exists x :: x in cards && c == Swept(x, now)
    ensures forall c | c in cards && IsShown(c, now) :: c in Pruned(SweptAll(cards, now))
  {
    SweptKeepsOk(cards, now);
    PruneKeepsOk(SweptAll(cards, now));
  }

  lemma {:induction false} StepKeepsOk(q: Queue, op: Op)
    requires QueueOk(q)
    ensures QueueOk(Step(q, op))
    ensures q.used <= Step(q, op).used && q.now <= Step(q, op).now
  {
    if op.ExpireOld? {
      SweepKeepsOk(q.cards, q.now);
    }
  }

  lemma {:induction false} RunKeepsOk(q: Queue, ops: seq<Op>)
    requires QueueOk(q)
    ensures QueueOk(Run(q, ops))
    ensures q.used <= Run(q, ops).used && q.now <= Run(q, ops).now
  {
    if ops != [] {
      RunKeepsOk(q, ops[..|ops| - 1]);
      StepKeepsOk(Run(q, ops[..|ops| - 1]), ops[|ops| - 1]);
    }
  }

  // ---------- the refinement relation ----------

  /** The client's unexpired cards are exactly `pending()`; what else it holds has run out. */
  predicate Matches(client: seq<Card>, cards: seq<Card>, now: int) {
    && Distinct(client)
    && (forall c | c in client :: c.status == Pending && c in cards)
    && Filter(client, Unexpired(now)) == Visible(cards, now)
  }

  predicate Agrees(client: seq<Card>, q: Queue) {
    Matches(client, q.cards, q.now)
  }

  lemma OthersDiffer(cards: seq<Card>, i: nat)
    requires i < |cards| && Distinct(cards)
    ensures forall c | c in cards[..i] :: c.id != cards[i].id
    ensures forall c | c in cards[i + 1..] :: c.id != cards[i].id
  {
  }

  lemma {:induction false} FilterNotIdAt(cards: seq<Card>, i: nat)
    requires i < |cards| && Distinct(cards)
    ensures Filter(cards, NotId(cards[i].id)) == Without(cards, i)
  {
    var p := NotId(cards[i].id);
    OthersDiffer(cards, i);
    FilterDropsOne(cards, i, p);
  }

  lemma RemovedIsFiltered(client: seq<Card>, id: nat, status: CardStatus)
    requires Distinct(client) && status != Pending
    ensures Apply(client, CardUpdate(id, status)) == Filter(client, NotId(id))
  {
    var i := IndexOf(client, id);
    if i.Some? {
      FilterNotIdAt(client, i.value);
    } else {
      FilterAll(client, NotId(id));
    }
  }

  lemma ResolvingHides(cards: seq<Card>, i: nat, c: Card, now: int)
    requires i < |cards| && Distinct(cards) && c.id == cards[i].id && c.status != Pending
    ensures Visible(cards[i := c], now) == Filter(Visible(cards, now), NotId(c.id))
  {
    UpdateHides(cards, i, c, Shown(now));
    FilterCommutes(cards, Shown(now), NotId(c.id));
    FilterNotIdAt(cards, i);
  }

  lemma UpdateHides(cards: seq<Card>, i: nat, c: Card, p: Card -> bool)
    requires i < |cards| && !p(c)
    ensures Filter(cards[i := c], p) == Filter(Without(cards, i), p)
  {
    FilterSplit(cards[i := c], i, p);
    assert cards[i := c][..i] == cards[..i];
    assert cards[i := c][i + 1..] == cards[i + 1..];
    FilterConcat(cards[..i], cards[i + 1..], p);
  }

  lemma ResolveMatches(client: seq<Card>, cards: seq<Card>, now: int, i: nat, c: Card)
    requires Distinct(cards) && Matches(client, cards, now)
    requires i < |cards| && c.id == cards[i].id && c.status != Pending
    ensures Matches(Apply(client, CardUpdate(c.id, c.status)), cards[i := c], now)
  {
    RemovedIsFiltered(client, c.id, c.status);
    var kept := Filter(client, NotId(c.id));
    FilterDistinct(client, NotId(c.id));
    assert Filter(kept, Unexpired(now)) == Visible(cards[i := c], now) by {
      FilterCommutes(client, NotId(c.id), Unexpired(now));
      ResolvingHides(cards, i, c, now);
    }
    forall x | x in kept ensures x.status == Pending && x in cards[i := c] {
      FilterMembers(client, NotId(c.id), x);
      StillThere(cards, i, c, x);
    }
  }

  lemma {:induction false} ResolveAgrees(
    client: seq<Card>, q: Queue, i: nat, status: CardStatus, payload: Payload, store: Store)
    requires QueueOk(q) && Agrees(client, q) && i < |q.cards| && status != Pending
    ensures Agrees(ApplyAll(client, Resolved(q, i, status, payload, store).log[|q.log|..]),
            Resolved(q, i, status, payload, store))
  {
    var after := Resolved(q, i, status, payload, store);
    var id := q.cards[i].id;
    var badge := Badge(CountsOf(after.cards, q.now));
    assert after.log[|q.log|..] == [CardUpdate(id, status), badge];
    ApplyTwo(client, CardUpdate(id, status), badge);
    ResolveMatches(client, q.cards, q.now, i, after.cards[i]);
  }

  lemma PushMatches(client: seq<Card>, cards: seq<Card>, now: int, card: Card)
    requires Matches(client, cards, now) && card.status == Pending
    requires forall c | c in cards :: c.id != card.id
    ensures Matches(client + [card], cards + [card], now)
  {
    FilterConcat(client, [card], Unexpired(now));
    FilterConcat(cards, [card], Shown(now));
    FilterOne(card, Unexpired(now));
    FilterOne(card, Shown(now));
    DistinctSnoc(client, card);
  }

  lemma DistinctSnoc(client: seq<Card>, card: Card)
    requires Distinct(client) && forall c | c in client :: c.id != card.id
    ensures Distinct(client + [card])
  {
    assert forall k | 0 <= k < |client| :: client[k] in client;
  }

  lemma {:induction false} PushAgrees(client: seq<Card>, q: Queue, card: Card)
    requires QueueOk(q) && Agrees(client, q) && card.id !in q.used && card.status == Pending
    ensures Agrees(ApplyAll(client, PushStep(q, card).log[|q.log|..]), PushStep(q, card))
  {
    var after := PushStep(q, card);
    var badge := Badge(CountsOf(after.cards, q.now));
    assert after.log[|q.log|..] == [badge, NewCard(card)];
    ApplyTwo(client, badge, NewCard(card));
    PushMatches(client, q.cards, q.now, card);
  }

  /** `cards` with the one that has `c`'s id replaced by `c`. */
  function Replaced(cards: seq<Card>, c: Card): seq<Card> {
    if cards == [] then []
    else Replaced(cards[..|cards| - 1], c) + [if cards[|cards| - 1].id == c.id then c else cards[|cards| - 1]]
  }

  lemma {:induction false} ReplacedAt(cards: seq<Card>, c: Card)
    ensures |Replaced(cards, c)| == |cards|
    ensures forall i | 0 <= i < |cards| :: Replaced(cards, c)[i] == if cards[i].id == c.id then c else cards[i]
  {
    if cards != [] {
      ReplacedAt(cards[..|cards| - 1], c);
    }
  }

  lemma UpdateIsReplaced(cards: seq<Card>, i: nat, c: Card)
    requires i < |cards| && Distinct(cards) && cards[i].id == c.id
    ensures cards[i := c] == Replaced(cards, c)
  {
    ReplacedAt(cards, c);
  }

  lemma AbsentIsReplaced(cards: seq<Card>, c: Card)
    requires forall x | x in cards :: x.id != c.id
    ensures Replaced(cards, c) == cards
  {
    ReplacedAt(cards, c);
  }

  lemma {:induction false} FilterReplaced(cards: seq<Card>, c: Card, p: Card -> bool)
    requires forall x | x in cards && x.id == c.id :: p(x) == p(c)
    ensures Filter(Replaced(cards, c), p) == Replaced(Filter(cards, p), c)
  {
    if cards != [] {
      var front, x := cards[..|cards| - 1], cards[|cards| - 1];
      FilterReplaced(front, c, p);
      assert x in cards;
      var y := if x.id == c.id then c else x;
      assert p(x) == p(y);
      FilterConcat(Replaced(front, c), [y], p);
      FilterOne(y, p);
      var kept := Filter(front, p);
      assert Replaced(kept + [x], c) == Replaced(kept, c) + [y] by {
        assert (kept + [x])[..|kept|] == kept;
      }
      assert Replaced(cards, c) == Replaced(front, c) + [y];
      assert Filter(cards, p) == if p(x) then kept + [x] else kept;
    }
  }

  lemma StillThere(cards: seq<Card>, i: nat, card: Card, c: Card)
    requires i < |cards| && c in cards && c.id != cards[i].id
    ensures c in cards[i := card]
  {
    var k :| 0 <= k < |cards| && cards[k] == c;
    assert cards[i := card][k] == c;
  }

  /** The client already holds the card. */
  lemma {:induction false} RefreshHeld(client: seq<Card>, cards: seq<Card>, now: int, i: nat, k: nat, card: Card)
    requires Distinct(cards) && Matches(client, cards, now) && i < |cards| && k < |client|
    requires card.id == cards[i].id == client[k].id && card.status == Pending && card.expiresAt == cards[i].expiresAt
    ensures Matches(client[k := card], cards[i := card], now)
  {
    assert client[k] in client;
    assert client[k] == cards[i];
    assert Filter(client[k := card], Unexpired(now)) == Visible(cards[i := card], now) by {
      UpdateIsReplaced(client, k, card);
      UpdateIsReplaced(cards, i, card);
      FilterReplaced(client, card, Unexpired(now));
      FilterReplaced(cards, card, Shown(now));
    }
    forall c | c in client[k := card] ensures c.status == Pending && c in cards[i := card] {
      if c != card {
        StillThere(cards, i, card, c);
      } else {
        assert cards[i := card][i] == card;
      }
    }
  }

  lemma RefreshMembers(client: seq<Card>, cards: seq<Card>, i: nat, card: Card)
    requires i < |cards| && card.id == cards[i].id && card.status == Pending
    requires forall c | c in client :: c.id != card.id && c.status == Pending && c in cards
    ensures forall c | c in [card] + client :: c.status == Pending && c in cards[i := card]
  {
    forall c | c in [card] + client ensures c.status == Pending && c in cards[i := card] {
      if c != card {
        assert c in client;
        StillThere(cards, i, card, c);
      } else {
        assert cards[i := card][i] == card;
      }
    }
  }

  lemma DistinctCons(card: Card, client: seq<Card>)
    requires Distinct(client) && forall c | c in client :: c.id != card.id
    ensures Distinct([card] + client)
  {
    assert forall k | 0 <= k < |client| :: client[k] in client;
  }

  /** A client never holds what had expired before its snapshot; it learns of such a card by its refresh. */
  lemma RefreshNew(client: seq<Card>, cards: seq<Card>, now: int, i: nat, card: Card)
    requires Distinct(cards) && Matches(client, cards, now) && i < |cards| && cards[i].status == Pending
    requires forall c | c in client :: c.id != card.id
    requires card.id == cards[i].id && card.status == Pending && card.expiresAt == cards[i].expiresAt
    ensures Matches([card] + client, cards[i := card], now)
  {
    assert IsExpired(card, now) by {
      FilterMembers(client, Unexpired(now), cards[i]);
      FilterMembers(cards, Shown(now), cards[i]);
    }
    assert Visible(cards[i := card], now) == Visible(cards, now) by {
      UpdateIsReplaced(cards, i, card);
      FilterReplaced(cards, card, Shown(now));
      SubsetFilter(client, Unexpired(now));
      AbsentIsReplaced(Visible(cards, now), card);
    }
    assert Filter([card] + client, Unexpired(now)) == Filter(client, Unexpired(now)) by {
      FilterConcat([card], client, Unexpired(now));
      FilterOne(card, Unexpired(now));
    }
    DistinctCons(card, client);
    RefreshMembers(client, cards, i, card);
  }

  lemma {:induction false} RefineAgrees(client: seq<Card>, q: Queue, id: nat, text: string, confidence: real)
    requires QueueOk(q) && Agrees(client, q) && Actionable(q, id)
    ensures Agrees(ApplyAll(client, RefineStep(q, id, text, confidence).log[|q.log|..]),
            RefineStep(q, id, text, confidence))
  {
    var after := RefineStep(q, id, text, confidence);
    var i := IndexOf(q.cards, id).value;
    var card := after.cards[i];
    assert after.log[|q.log|..] == [CardRefreshed(card)];
    ApplyOne(client, CardRefreshed(card));
    var at := IndexOf(client, id);
    if at.Some? {
      RefreshHeld(client, q.cards, q.now, i, at.value, card);
    } else {
      RefreshNew(client, q.cards, q.now, i, card);
    }
  }

  // ---------- the sweep ----------

  lemma {:induction false} SweptVisible(cards: seq<Card>, now: int)
    ensures Visible(SweptAll(cards, now), now) == Visible(cards, now)
  {
    if cards != [] {
      SweptVisible(cards[..|cards| - 1], now);
    }
  }

  lemma {:induction false} DropResolvedVisible(cards: seq<Card>, n: nat, now: int)
    ensures Visible(DropResolved(cards, n), now) == Visible(cards, now)
  {
    if cards != [] {
      FilterSplit(cards, 0, Shown(now));
      if cards[0].status != Pending && n > 0 {
        DropResolvedVisible(cards[1..], n - 1, now);
      } else {
        DropResolvedVisible(cards[1..], n, now);
        FilterConcat([cards[0]], DropResolved(cards[1..], n), Shown(now));
        FilterOne(cards[0], Shown(now));
      }
    }
  }

  lemma SweepVisible(cards: seq<Card>, now: int)
    ensures Visible(Pruned(SweptAll(cards, now)), now) == Visible(cards, now)
  {
    SweptVisible(cards, now);
    DropResolvedVisible(SweptAll(cards, now), Surplus(SweptAll(cards, now)), now);
  }

  lemma {:induction false} ExpiryApplied(client: seq<Card>, id: nat, now: int)
    requires Distinct(client)
    requires forall c | c in client && c.id == id :: IsExpired(c, now)
    ensures var kept := Apply(client, CardExpired(id));
            && Distinct(kept)
            && (forall c | c in kept :: c in client && c.id != id)
            && Filter(kept, Unexpired(now)) == Filter(client, Unexpired(now))
  {
    FilterDistinct(client, NotId(id));
    SubsetFilter(client, NotId(id));
    FilterBoth(client, NotId(id), Unexpired(now), Unexpired(now));
  }

  lemma {:induction false} ExpiriesApplied(client: seq<Card>, due: seq<Card>, now: int)
    requires Distinct(client)
    requires forall d, c | d in due && c in client && c.id == d.id :: IsExpired(c, now)
    ensures var kept := ApplyAll(client, ExpiryEvents(due));
            && Distinct(kept)
            && (forall c | c in kept :: c in client && forall d | d in due :: d.id != c.id)
            && Filter(kept, Unexpired(now)) == Filter(client, Unexpired(now))
  {
    if due != [] {
      var front, d := due[..|due| - 1], due[|due| - 1];
      assert due == front + [d];
      assert ExpiryEvents(due)[..|due| - 1] == ExpiryEvents(front);
      ExpiriesApplied(client, front, now);
      ExpiryApplied(ApplyAll(client, ExpiryEvents(front)), d.id, now);
    }
  }

  lemma {:induction false} SweepMatches(client: seq<Card>, cards: seq<Card>, now: int)
    requires Distinct(cards) && Matches(client, cards, now)
    ensures Matches(ApplyAll(client, ExpiryEvents(Filter(cards, IsDue(now)))), Pruned(SweptAll(cards, now)), now)
  {
    var due := Filter(cards, IsDue(now));
    SubsetFilter(cards, IsDue(now));
    forall d, c | d in due && c in client && c.id == d.id ensures IsExpired(c, now) {
      DistinctMembers(cards, c, d);
    }
    ExpiriesApplied(client, due, now);
    SweepVisible(cards, now);
    SweepKeepsOk(cards, now);
  }

  lemma BadgesPass(client: seq<Card>, events: seq<WsMessage>, counts: SiloCounts)
    ensures ApplyAll(client, events + [Badge(counts)]) == ApplyAll(client, events)
  {
    ApplyAllConcat(client, events, [Badge(counts)]);
    ApplyOne(ApplyAll(client, events), Badge(counts));
  }

  lemma {:induction false} SweepReplayed(client: seq<Card>, q: Queue)
    ensures ApplyAll(client, ExpireStep(q).log[|q.log|..])
            == ApplyAll(client, ExpiryEvents(Filter(q.cards, IsDue(q.now))))
  {
    var due, counts := Filter(q.cards, IsDue(q.now)), CountsOf(ExpireStep(q).cards, q.now);
    var events := ExpiryEvents(due);
    if due == [] {
      assert ExpireStep(q).log[|q.log|..] == events;
    } else {
      assert ExpireStep(q).log[|q.log|..] == events + [Badge(counts)];
      BadgesPass(client, events, counts);
    }
  }

  lemma {:induction false} ExpireAgrees(client: seq<Card>, q: Queue)
    requires QueueOk(q) && Agrees(client, q)
    ensures Agrees(ApplyAll(client, ExpireStep(q).log[|q.log|..]), ExpireStep(q))
  {
    SweepReplayed(client, q);
    SweepMatches(client, q.cards, q.now);
  }

  lemma AdvanceAgrees(client: seq<Card>, q: Queue, seconds: nat)
    requires Agrees(client, q)
    ensures Agrees(client, q.(now := q.now + seconds))
  {
    var later := q.now + seconds;
    FilterBoth(client, Unexpired(q.now), Unexpired(later), Unexpired(later));
    FilterBoth(q.cards, Shown(q.now), Unexpired(later), Shown(later));
  }

  // ---------- replay refines the queue ----------

  lemma {:induction false} StepAgrees(client: seq<Card>, q: Queue, op: Op)
    requires QueueOk(q) && Agrees(client, q)
    ensures q.log <= Step(q, op).log
    ensures Agrees(ApplyAll(client, Step(q, op).log[|q.log|..]), Step(q, op))
  {
    match op
    case Push(id, silo, payload, expiresAt) =>
      if id !in q.used {
        PushAgrees(client, q, Card(id, silo, payload, Pending, expiresAt, q.now));
      }
    case Approve(id) =>
      if Actionable(q, id) {
        var i := IndexOf(q.cards, id).value;
        ResolveAgrees(client, q, i, Approved, q.cards[i].payload, SetRowStatus(q.store, id, Approved));
      }
    case Dismiss(id) =>
      if Actionable(q, id) {
        var i := IndexOf(q.cards, id).value;
        ResolveAgrees(client, q, i, Dismissed, q.cards[i].payload, SetRowStatus(q.store, id, Dismissed));
      }
    case Edit(id, text) =>
      if Actionable(q, id) {
        var i := IndexOf(q.cards, id).value;
        ResolveAgrees(client, q, i, Approved, WithText(q.cards[i].payload, text),
          SetRowReply(q.store, id, text, Approved));
      }
    case Refine(id, text, confidence) =>
      if Actionable(q, id) {
        RefineAgrees(client, q, id, text, confidence);
      }
    case MarkSent(id) =>
      var i := IndexOf(q.cards, id);
      if i.Some? {
        ResolveAgrees(client, q, i.value, Sent, q.cards[i.value].payload, SetRowStatus(q.store, id, Sent));
      }
    case ExpireOld => ExpireAgrees(client, q);
    case Advance(seconds) => AdvanceAgrees(client, q, seconds);
  }

  lemma TailConcat<T>(a: seq<T>, b: seq<T>, n: nat)
    requires n <= |a| && a <= b
    ensures b[n..] == a[n..] + b[|a|..]
  {
  }

  lemma {:induction false} RunAgrees(client: seq<Card>, q: Queue, ops: seq<Op>)
    requires QueueOk(q) && Agrees(client, q)
    ensures q.log <= Run(q, ops).log
    ensures Agrees(ApplyAll(client, Run(q, ops).log[|q.log|..]), Run(q, ops))
  {
    if ops == [] {
      assert q.log[|q.log|..] == [];
    } else {
      var front, op := ops[..|ops| - 1], ops[|ops| - 1];
      var before := Run(q, front);
      RunAgrees(client, q, front);
      RunKeepsOk(q, front);
      var held := ApplyAll(client, before.log[|q.log|..]);
      StepAgrees(held, before, op);
      var log := Step(before, op).log;
      TailConcat(before.log, log, |q.log|);
      ApplyAllConcat(client, before.log[|q.log|..], log[|before.log|..]);
    }
  }

  lemma SnapshotAgrees(q: Queue)
    requires QueueOk(q)
    ensures Agrees(Visible(q.cards, q.now), q)
  {
    FilterDistinct(q.cards, Shown(q.now));
    SubsetFilter(q.cards, Shown(q.now));
    FilterBoth(q.cards, Shown(q.now), Unexpired(q.now), Shown(q.now));
  }

  lemma SyncReplaces(client: seq<Card>, q: Queue)
    ensures Apply(client, CardsSync(Visible(q.cards, q.now))) == Visible(q.cards, q.now)
  {
    FilterBoth(q.cards, Shown(q.now), IsPending(), Shown(q.now));
  }

  /** Whatever a client held, after a snapshot and the events broadcast since, its unexpired cards are
      `pending()`: same cards, same contents, same order. */
  lemma {:induction false} ReplayRefinesPending(stale: seq<Card>, q: Queue, ops: seq<Op>)
    requires QueueOk(q)
    ensures q.log <= Run(q, ops).log
    ensures var seen := [CardsSync(Visible(q.cards, q.now))] + Run(q, ops).log[|q.log|..];
            Filter(ApplyAll(stale, seen), Unexpired(Run(q, ops).now)) == Visible(Run(q, ops).cards, Run(q, ops).now)
  {
    SnapshotAgrees(q);
    RunAgrees(Visible(q.cards, q.now), q, ops);
    SyncReplaces(stale, q);
    var sync := CardsSync(Visible(q.cards, q.now));
    ApplyAllConcat(stale, [sync], Run(q, ops).log[|q.log|..]);
    ApplyOne(stale, sync);
  }
}
