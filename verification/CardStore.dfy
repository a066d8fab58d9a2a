/** The write-through store agrees with the queue in memory (src/cards/queue.rs, src/store/libsql_backend.rs). */
module CardStore {
  import opened Wrappers
  import opened Filtering
  import opened Cards
  import opened CardReplay

  /** What memory and store must agree on: everything except confidence and timestamps. */
  datatype Face = Face(silo: CardSilo, payload: Payload, expiresAt: Option<int>)

  function Unscored(p: Payload): Payload {
    if p.Reply? then p.(confidence := 0.0) else p
  }

  predicate RowVisible(row: Row, now: int) {
    row.status == Pending && !RowPast(row, now)
  }

  /** A card as `pending()` shows it. */
  function MemoryFace(q: Queue, id: nat): Option<Face> {
    var shown := Visible(q.cards, q.now);
    var i := IndexOf(shown, id);
    if i.None? then None
    else var c := shown[i.value]; Some(Face(c.silo, Unscored(c.payload), c.expiresAt))
  }

  /** A card as the store's query for pending cards shows it. */
  function StoreFace(store: Store, now: int, id: nat): Option<Face> {
    if id in store && RowVisible(store[id], now)
    then Some(Face(store[id].silo, Unscored(store[id].payload), store[id].expiresAt))
    else None
  }

  // ---------- the invariant ----------

  /** The row is the card's, except that the store may have expired it at the expiry instant itself. */
  predicate RowMatches(c: Card, row: Row, now: int) {
    && row.silo == c.silo && row.expiresAt == c.expiresAt && Unscored(row.payload) == Unscored(c.payload)
    && (row.status == c.status || (c.status == Pending && row.status == Expired && RowPast(row, now)))
  }

  predicate StoreMatches(cards: seq<Card>, store: Store, now: int) {
    && (forall c | c in cards :: c.id in store && RowMatches(c, store[c.id], now))
    && (forall id | id in store && IndexOf(cards, id).None? :: !RowVisible(store[id], now))
  }

  predicate StoreOk(q: Queue) {
    && QueueOk(q)
    && (forall id | id in q.store :: id in q.used)
    && StoreMatches(q.cards, q.store, q.now)
  }

  lemma Found(cards: seq<Card>, c: Card)
    requires Distinct(cards) && c in cards
    ensures IndexOf(cards, c.id).Some? && cards[IndexOf(cards, c.id).value] == c
  {
  }

  lemma UpdateMatches(cards: seq<Card>, i: nat, c: Card, store: Store, row: Row, now: int)
    requires Distinct(cards) && StoreMatches(cards, store, now)
    requires i < |cards| && c.id == cards[i].id && RowMatches(c, row, now)
    ensures StoreMatches(cards[i := c], store[c.id := row], now)
  {
    var after := cards[i := c];
    forall x | x in after ensures x.id in store && RowMatches(x, store[c.id := row][x.id], now) {
      var k :| 0 <= k < |after| && after[k] == x;
      assert cards[k] in cards;
    }
    forall id | id in store[c.id := row] && IndexOf(after, id).None? ensures !RowVisible(store[c.id := row][id], now) {
      assert after[i].id == c.id;
      assert forall k | 0 <= k < |cards| :: after[k].id == cards[k].id;
      assert IndexOf(cards, id).None?;
    }
  }

  lemma ActionKeepsStore(q: Queue, i: nat, after: Queue)
    requires StoreOk(q) && QueueOk(after) && i < |q.cards| && i < |after.cards|
    requires after.cards == q.cards[i := after.cards[i]] && after.cards[i].id == q.cards[i].id
    requires after.used == q.used && after.now == q.now
    requires q.cards[i].id in after.store && after.store == q.store[q.cards[i].id := after.store[q.cards[i].id]]
    requires RowMatches(after.cards[i], after.store[q.cards[i].id], q.now)
    ensures StoreOk(after)
  {
    assert q.cards[i] in q.cards;
    UpdateMatches(q.cards, i, after.cards[i], q.store, after.store[q.cards[i].id], q.now);
  }

  lemma {:induction false} StatusKeepsStore(q: Queue, i: nat, status: CardStatus)
    requires StoreOk(q) && i < |q.cards| && status != Pending
    ensures StoreOk(Resolved(q, i, status, q.cards[i].payload, SetRowStatus(q.store, q.cards[i].id, status)))
  {
    assert q.cards[i] in q.cards;
    ActionKeepsStore(q, i, Resolved(q, i, status, q.cards[i].payload, SetRowStatus(q.store, q.cards[i].id, status)));
  }

  lemma {:induction false} EditKeepsStore(q: Queue, i: nat, text: string)
    requires StoreOk(q) && i < |q.cards|
    ensures StoreOk(Resolved(q, i, Approved, WithText(q.cards[i].payload, text),
            SetRowReply(q.store, q.cards[i].id, text, Approved)))
  {
    assert q.cards[i] in q.cards;
    ActionKeepsStore(q, i, Resolved(q, i, Approved, WithText(q.cards[i].payload, text),
      SetRowReply(q.store, q.cards[i].id, text, Approved)));
  }

  lemma {:induction false} RefineKeepsStore(q: Queue, id: nat, text: string, confidence: real)
    requires StoreOk(q)
    ensures StoreOk(RefineStep(q, id, text, confidence))
  {
    if Actionable(q, id) {
      var i := IndexOf(q.cards, id).value;
      assert q.cards[i] in q.cards;
      ActionKeepsStore(q, i, RefineStep(q, id, text, confidence));
    }
  }

  lemma {:induction false} PushMatchesStore(cards: seq<Card>, store: Store, card: Card, now: int)
    requires StoreMatches(cards, store, now) && card.id !in store
    requires forall c | c in cards :: c.id != card.id
    ensures var row := Row(card.silo, card.payload, card.status, card.expiresAt);
            StoreMatches(cards + [card], store[card.id := row], now)
  {
    var after, rows := cards + [card], store[card.id := Row(card.silo, card.payload, card.status, card.expiresAt)];
    forall id | id in rows && IndexOf(after, id).None? ensures !RowVisible(rows[id], now) {
      assert after[|cards|].id == card.id;
      assert forall k | 0 <= k < |cards| :: after[k] == cards[k];
      assert IndexOf(cards, id).None?;
    }
  }

  lemma {:induction false} PushKeepsStore(q: Queue, card: Card)
    requires StoreOk(q) && card.id !in q.used
    ensures StoreOk(PushStep(q, card))
  {
    PushMatchesStore(q.cards, q.store, card, q.now);
    DistinctSnoc(q.cards, card);
  }

  lemma {:induction false} SweptMatches(cards: seq<Card>, store: Store, now: int)
    requires Distinct(cards) && StoreMatches(cards, store, now)
    ensures StoreMatches(SweptAll(cards, now), ExpireRows(store, now), now)
  {
    SweptAt(cards, now);
    SweptKeepsOk(cards, now);
    var swept := SweptAll(cards, now);
    forall c | c in swept ensures c.id in store && RowMatches(c, ExpireRows(store, now)[c.id], now) {
      var x :| x in cards && c == Swept(x, now);
    }
    forall id | id in store && IndexOf(swept, id).None? ensures !RowVisible(ExpireRows(store, now)[id], now) {
      assert forall k | 0 <= k < |cards| :: swept[k].id == cards[k].id;
      assert IndexOf(cards, id).None?;
    }
  }

  lemma {:induction false} PruneMatches(cards: seq<Card>, store: Store, now: int)
    requires Distinct(cards) && StoreMatches(cards, store, now)
    ensures StoreMatches(Pruned(cards), store, now)
  {
    PruneKeepsOk(cards);
    forall id | id in store && IndexOf(Pruned(cards), id).None? ensures !RowVisible(store[id], now) {
      var i := IndexOf(cards, id);
      if i.Some? {
        var c := cards[i.value];
        assert c in cards;
        assert c !in Pruned(cards);
      }
    }
  }

  lemma {:induction false} StepKeepsStore(q: Queue, op: Op)
    requires StoreOk(q)
    ensures StoreOk(Step(q, op))
  {
    StepKeepsOk(q, op);
    match op
    case Push(id, silo, payload, expiresAt) =>
      if id !in q.used {
        PushKeepsStore(q, Card(id, silo, payload, Pending, expiresAt, q.now));
      }
    case Approve(id) =>
      if Actionable(q, id) {
        StatusKeepsStore(q, IndexOf(q.cards, id).value, Approved);
      }
    case Dismiss(id) =>
      if Actionable(q, id) {
        StatusKeepsStore(q, IndexOf(q.cards, id).value, Dismissed);
      }
    case Edit(id, text) =>
      if Actionable(q, id) {
        EditKeepsStore(q, IndexOf(q.cards, id).value, text);
      }
    case Refine(id, text, confidence) => RefineKeepsStore(q, id, text, confidence);
    case MarkSent(id) =>
      var i := IndexOf(q.cards, id);
      if i.Some? {
        StatusKeepsStore(q, i.value, Sent);
      }
    case ExpireOld =>
      SweptMatches(q.cards, q.store, q.now);
      SweptKeepsOk(q.cards, q.now);
      PruneMatches(SweptAll(q.cards, q.now), ExpireRows(q.store, q.now), q.now);
    case Advance(seconds) =>
  }

  lemma {:induction false} RunKeepsStore(q: Queue, ops: seq<Op>)
    requires StoreOk(q)
    ensures StoreOk(Run(q, ops))
  {
    if ops != [] {
      RunKeepsStore(q, ops[..|ops| - 1]);
      StepKeepsStore(Run(q, ops[..|ops| - 1]), ops[|ops| - 1]);
    }
  }

  // ---------- agreement ----------

  ghost predicate ViewsAgree(q: Queue) {
    forall id: nat :: MemoryFace(q, id) == StoreFace(q.store, q.now, id)
  }

  /** Some shown card expires at this very instant. */
  predicate OnTheBoundary(q: Queue) {
    exists c :: c in Visible(q.cards, q.now) && c.expiresAt == Some(q.now)
  }

  lemma FaceOf(q: Queue, id: nat)
    requires QueueOk(q)
    ensures var i := IndexOf(q.cards, id);
            MemoryFace(q, id) == if i.None? || !IsShown(q.cards[i.value], q.now) then None
                                 else Some(Face(q.cards[i.value].silo, Unscored(q.cards[i.value].payload),
                                   q.cards[i.value].expiresAt))
  {
    var shown := Visible(q.cards, q.now);
    SubsetFilter(q.cards, Shown(q.now));
    var i := IndexOf(q.cards, id);
    var k := IndexOf(shown, id);
    if k.Some? {
      assert shown[k.value] in shown;
      Found(q.cards, shown[k.value]);
    } else if i.Some? {
      assert q.cards[i.value] in q.cards;
      assert q.cards[i.value] !in shown;
    }
  }

  lemma {:induction false} FacesAgreeIff(q: Queue, id: nat)
    requires StoreOk(q)
    ensures var i := IndexOf(q.cards, id);
            MemoryFace(q, id) == StoreFace(q.store, q.now, id)
            <==> i.None? || !IsShown(q.cards[i.value], q.now) || q.cards[i.value].expiresAt != Some(q.now)
  {
    FaceOf(q, id);
    var i := IndexOf(q.cards, id);
    if i.Some? {
      assert q.cards[i.value] in q.cards;
    }
  }

  /** In every reachable state memory and store show the same pending cards, unless a card is exactly
      at its expiry instant: memory still shows it then, the store no longer does. */
  lemma WriteThroughAgreesIff(q: Queue, ops: seq<Op>)
    requires StoreOk(q)
    ensures ViewsAgree(Run(q, ops)) <==> !OnTheBoundary(Run(q, ops))
  {
    RunKeepsStore(q, ops);
    AgreeIff(Run(q, ops));
  }

  lemma AgreeIff(q: Queue)
    requires StoreOk(q)
    ensures ViewsAgree(q) <==> !OnTheBoundary(q)
  {
    SubsetFilter(q.cards, Shown(q.now));
    if OnTheBoundary(q) {
      var c :| c in Visible(q.cards, q.now) && c.expiresAt == Some(q.now);
      Found(q.cards, c);
      FacesAgreeIff(q, c.id);
    } else {
      forall id: nat ensures MemoryFace(q, id) == StoreFace(q.store, q.now, id) {
        FacesAgreeIff(q, id);
        var i := IndexOf(q.cards, id);
        if i.Some? {
          assert q.cards[i.value] in q.cards;
        }
      }
    }
  }

  // ---------- rebuilding from the store ----------

  /** `cards` are the store's pending cards, in any order. */
  predicate Loads(cards: seq<Card>, store: Store, now: int) {
    && Distinct(cards)
    && (forall id | id in store && RowVisible(store[id], now) :: IndexOf(cards, id).Some?)
    && (forall c | c in cards ::
          c.id in store && RowVisible(store[c.id], now)
          && store[c.id] == Row(c.silo, c.payload, c.status, c.expiresAt))
  }

  /** A queue rebuilt from the store shows what the old one showed, unless a card is at its expiry
      instant; and it is again a queue whose store matches. */
  lemma {:induction false} RebuildAgreesIff(q: Queue, ops: seq<Op>, cards: seq<Card>)
    requires StoreOk(q) && Loads(cards, Run(q, ops).store, Run(q, ops).now)
    ensures var before := Run(q, ops);
            var rebuilt := Queue(cards, before.store, [], before.now, before.used);
            && StoreOk(rebuilt) && ViewsAgree(rebuilt)
            && ((forall id: nat :: MemoryFace(rebuilt, id) == MemoryFace(before, id)) <==> !OnTheBoundary(before))
  {
    var before := Run(q, ops);
    var rebuilt := Queue(cards, before.store, [], before.now, before.used);
    RunKeepsStore(q, ops);
    AgreeIff(before);
    SubsetFilter(cards, Shown(before.now));
    assert StoreOk(rebuilt);
    AgreeIff(rebuilt);
    assert ViewsAgree(rebuilt);
    if forall id: nat :: MemoryFace(rebuilt, id) == MemoryFace(before, id) {
      assert ViewsAgree(before);
    }
  }

  lemma ExpiringCardShows(cards: seq<Card>, card: Card, now: int)
    requires card.status == Pending && card.expiresAt == Some(now)
    ensures card in Visible(cards + [card], now)
  {
    FilterMembers(cards + [card], Shown(now), card);
  }

  /** The boundary is reached by any card that lives to its expiry instant. */
  lemma BoundaryIsReached(q: Queue, id: nat, silo: CardSilo, payload: Payload, lifetime: nat)
    requires QueueOk(q) && id !in q.used
    ensures OnTheBoundary(Step(Step(q, Push(id, silo, payload, Some(q.now + lifetime))), Advance(lifetime)))
  {
    var card := Card(id, silo, payload, Pending, Some(q.now + lifetime), q.now);
    ExpiringCardShows(q.cards, card, q.now + lifetime);
    assert PushStep(q, card).cards == q.cards + [card];
  }
}
