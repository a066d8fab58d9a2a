/** A refinement is persisted and broadcast after the lock is released: when memory and store still
    agree then, and how they come apart (src/cards/queue.rs). */
module CardPublication {
  import opened Wrappers
  import opened Cards
  import opened CardReplay
  import opened CardEvolution
  import opened CardStore
  import opened CardLifecycle

  /** The row is the card's up to status and reply text. */
  predicate RowFits(c: Card, row: Row) {
    row.silo == c.silo && row.expiresAt == c.expiresAt && Kindred(row.payload, c.payload)
  }

  predicate AllFit(cards: seq<Card>, store: Store) {
    forall c | c in cards :: c.id in store && RowFits(c, store[c.id])
  }

  /** What survives of the store invariant while refinements wait to be published. */
  predicate DeskOk(d: Desk) {
    && QueueOk(d.q)
    && (forall id | id in d.q.store :: id in d.q.used)
    && AllFit(d.q.cards, d.q.store) && AllFit(d.unpublished, d.q.store)
  }

  /** Rows are never removed, and keep silo, expiry and kind of payload. */
  predicate StoreGrows(before: Store, after: Store) {
    forall id | id in before ::
      && id in after && after[id].silo == before[id].silo && after[id].expiresAt == before[id].expiresAt
      && Kindred(after[id].payload, before[id].payload)
  }

  lemma GrowthFits(cards: seq<Card>, before: Store, after: Store)
    requires AllFit(cards, before) && StoreGrows(before, after)
    ensures AllFit(cards, after)
  {
  }

  /** Later versions of cards that fit fit too. */
  lemma DescendantsFit(q: Queue, after: Queue)
    requires AllFit(q.cards, q.store) && StoreGrows(q.store, after.store)
    requires forall x | x in after.cards :: HasAncestor(x, q.cards)
    ensures AllFit(after.cards, after.store)
  {
    forall x | x in after.cards ensures x.id in after.store && RowFits(x, after.store[x.id]) {
      var y :| y in q.cards && Succeeds(x, y);
    }
  }

  lemma WritesGrow(store: Store, id: nat, text: string, status: CardStatus)
    ensures StoreGrows(store, store)
    ensures StoreGrows(store, SetRowStatus(store, id, status)) && SetRowStatus(store, id, status).Keys == store.Keys
    ensures StoreGrows(store, SetRowReply(store, id, text, status))
            && SetRowReply(store, id, text, status).Keys == store.Keys
  {
  }

  lemma {:induction false} ActionGrows(q: Queue, op: Op, id: nat)
    requires Targets(op, id)
    ensures StoreGrows(q.store, Step(q, op).store) && Step(q, op).store.Keys == q.store.Keys
  {
    match op
    case Approve(_) => WritesGrow(q.store, id, "", Approved);
    case Dismiss(_) => WritesGrow(q.store, id, "", Dismissed);
    case Edit(_, text) => WritesGrow(q.store, id, text, Approved);
    case MarkSent(_) => WritesGrow(q.store, id, "", Sent);
    case Refine(_, text, confidence) =>
      var i := IndexOf(q.cards, id);
      var reply := if i.Some? && q.cards[i.value].payload.Reply? then text else "";
      WritesGrow(q.store, id, reply, Pending);
  }

  lemma {:induction false} ActionKeepsFit(d: Desk, op: Op, id: nat)
    requires DeskOk(d) && Targets(op, id)
    ensures DeskOk(d.(q := Step(d.q, op)))
  {
    StepKeepsOk(d.q, op);
    ActionEvolves(d.q, op, id);
    ActionGrows(d.q, op, id);
    DescendantsFit(d.q, Step(d.q, op));
    GrowthFits(d.unpublished, d.q.store, Step(d.q, op).store);
  }

  lemma PushKeepsFit(d: Desk, card: Card)
    requires DeskOk(d) && card.id !in d.q.used
    ensures DeskOk(d.(q := PushStep(d.q, card)))
  {
    var after := PushStep(d.q, card);
    GrowthFits(d.q.cards, d.q.store, after.store);
    GrowthFits(d.unpublished, d.q.store, after.store);
    DistinctSnoc(d.q.cards, card);
  }

  lemma {:induction false} SweepKeepsFit(d: Desk)
    requires DeskOk(d)
    ensures DeskOk(d.(q := ExpireStep(d.q)))
  {
    StepKeepsOk(d.q, ExpireOld);
    SweepEvolves(d.q.cards, d.q.now);
    DescendantsFit(d.q, ExpireStep(d.q));
    GrowthFits(d.unpublished, d.q.store, ExpireStep(d.q).store);
  }

  lemma {:induction false} StepKeepsFit(d: Desk, op: Op)
    requires DeskOk(d)
    ensures DeskOk(d.(q := Step(d.q, op)))
  {
    match op
    case Push(id, silo, payload, expiresAt) =>
      if id !in d.q.used {
        PushKeepsFit(d, Card(id, silo, payload, Pending, expiresAt, d.q.now));
      }
    case Approve(id) => ActionKeepsFit(d, op, id);
    case Dismiss(id) => ActionKeepsFit(d, op, id);
    case Edit(id, text) => ActionKeepsFit(d, op, id);
    case Refine(id, text, confidence) => ActionKeepsFit(d, op, id);
    case MarkSent(id) => ActionKeepsFit(d, op, id);
    case ExpireOld => SweepKeepsFit(d);
    case Advance(seconds) =>
  }

  lemma CommitKeepsFit(d: Desk, k: nat, text: string, confidence: real)
    requires DeskOk(d) && k < |d.drafting|
    ensures DeskOk(Commit(d, k, text, confidence))
  {
    var after := Commit(d, k, text, confidence);
    CommitEvolves(d, k, text, confidence);
    if Actionable(d.q, d.drafting[k]) {
      var i := IndexOf(d.q.cards, d.drafting[k]).value;
      assert d.q.cards[i] in d.q.cards;
      UpdateEvolves(d.q.cards, i, after.q.cards[i]);
      DescendantsFit(d.q, after.q);
      assert after.q.cards[i] in after.q.cards;
    }
  }

  lemma PublishKeepsFit(d: Desk, k: nat)
    requires DeskOk(d) && k < |d.unpublished|
    ensures DeskOk(Publish(d, k))
  {
    var after := Publish(d, k);
    GrowthFits(d.q.cards, d.q.store, after.q.store);
    GrowthFits(d.unpublished, d.q.store, after.q.store);
    assert forall u | u in after.unpublished :: u in d.unpublished;
  }

  lemma {:induction false} PerformKeepsFit(d: Desk, a: Act)
    requires DeskOk(d)
    ensures DeskOk(Perform(d, a))
  {
    match a
    case Do(op) => StepKeepsFit(d, op);
    case BeginRefine(id) =>
    case AbandonRefine(k) =>
    case CommitRefine(k, text, confidence) =>
      if k < |d.drafting| {
        CommitKeepsFit(d, k, text, confidence);
      }
    case PublishRefine(k) =>
      if k < |d.unpublished| {
        PublishKeepsFit(d, k);
      }
  }

  lemma {:induction false} RunKeepsFit(q: Queue, acts: seq<Act>)
    requires StoreOk(q)
    ensures DeskOk(PerformAll(Desk(q, [], []), acts))
  {
    if acts != [] {
      RunKeepsFit(q, acts[..|acts| - 1]);
      PerformKeepsFit(PerformAll(Desk(q, [], []), acts[..|acts| - 1]), acts[|acts| - 1]);
    }
  }

  /** The text a publication writes. */
  function TextOf(p: Payload): string {
    if p.Reply? then p.text else ""
  }

  /** The refined card is still queued, still pending, and nothing has changed its text since. */
  predicate StillCurrent(q: Queue, card: Card) {
    var i := IndexOf(q.cards, card.id);
    i.Some? && q.cards[i.value].status == Pending && TextOf(q.cards[i.value].payload) == TextOf(card.payload)
  }

  /** Memory shows the card although the store counts it as expired. */
  predicate AtItsInstant(q: Queue, id: nat) {
    var i := IndexOf(q.cards, id);
    i.Some? && q.cards[i.value].status == Pending && q.cards[i.value].expiresAt == Some(q.now)
  }

  lemma PublishAgreesIff(d: Desk, k: nat)
    requires DeskOk(d) && k < |d.unpublished|
    ensures var card, after := d.unpublished[k], Publish(d, k).q;
            && card.id in d.q.store
            && (MemoryFace(after, card.id) == StoreFace(after.store, after.now, card.id)
                <==> if RowPast(d.q.store[card.id], d.q.now) then !AtItsInstant(d.q, card.id)
                  else StillCurrent(d.q, card))
  {
    var card, after := d.unpublished[k], Publish(d, k).q;
    assert card in d.unpublished;
    PublishKeepsFit(d, k);
    FaceOf(after, card.id);
    var i := IndexOf(d.q.cards, card.id);
    if i.Some? {
      assert d.q.cards[i.value] in d.q.cards;
    }
  }

  /** In every interleaving, publishing a refinement leaves memory and store agreeing on its card exactly
      when the card is still queued and pending with the text that is published; for a row past its
      expiry, exactly when the card is not at its expiry instant. */
  lemma {:induction false} LateWriteAgreesIff(q: Queue, acts: seq<Act>, k: nat)
    requires StoreOk(q) && k < |PerformAll(Desk(q, [], []), acts).unpublished|
    ensures var d := PerformAll(Desk(q, [], []), acts);
            var card, after := d.unpublished[k], Publish(d, k).q;
            && card.id in d.q.store
            && (MemoryFace(after, card.id) == StoreFace(after.store, after.now, card.id)
                <==> if RowPast(d.q.store[card.id], d.q.now) then !AtItsInstant(d.q, card.id)
                  else StillCurrent(d.q, card))
  {
    RunKeepsFit(q, acts);
    PublishAgreesIff(PerformAll(Desk(q, [], []), acts), k);
  }

  lemma PerformFour(d: Desk, a: Act, b: Act, c: Act, e: Act)
    ensures PerformAll(d, [a, b, c, e]) == Perform(Perform(Perform(Perform(d, a), b), c), e)
  {
    assert [a, b, c, e][..3] == [a, b, c];
    PerformThree(d, a, b, c);
  }

  /** The desk after two refinements of one card committed one after the other. */
  lemma {:induction false} TwoCommitted(q: Queue, id: nat, a: string, b: string, confidence: real)
    returns (first: Card, second: Card)
    requires QueueOk(q) && Actionable(q, id)
    requires q.cards[IndexOf(q.cards, id).value].payload.Reply?
    ensures first.id == second.id == id && first.status == second.status == Pending
    ensures first.payload == Payload.Reply(a, confidence) && second.payload == Payload.Reply(b, confidence)
    ensures first.expiresAt == second.expiresAt == q.cards[IndexOf(q.cards, id).value].expiresAt
    ensures PerformAll(Desk(q, [], []), TwoRefinements(id, a, b, confidence))
            == Desk(q.(cards := q.cards[IndexOf(q.cards, id).value := second]), [], [first, second])
  {
    var start, i := Desk(q, [], []), IndexOf(q.cards, id).value;
    PerformFour(start, BeginRefine(id), BeginRefine(id), CommitRefine(0, a, confidence),
      CommitRefine(0, b, confidence));
    var begun := Perform(Perform(start, BeginRefine(id)), BeginRefine(id));
    assert begun.drafting == [id, id] && Dropped(begun.drafting, 0) == [id];
    var once := Commit(begun, 0, a, confidence);
    first := once.q.cards[i];
    SameIndex(q.cards, i, first);
    assert Dropped([id], 0) == [];
    var twice := Commit(once, 0, b, confidence);
    second := twice.q.cards[i];
    assert twice.q.cards == q.cards[i := second];
  }

  lemma PublishLast(d: Desk, first: Card, second: Card)
    requires d.unpublished == [first, second] && first.id == second.id
    requires first.payload.Reply? && second.payload.Reply?
    ensures var end := Publish(Publish(d, 1), 0);
            && end.q.cards == d.q.cards && end.q.now == d.q.now
            && end.q.store == SetRowReply(SetRowReply(d.q.store, first.id, second.payload.text, Pending), first.id,
               first.payload.text, Pending)
            && end.q.log == d.q.log + [CardRefreshed(second)] + [CardRefreshed(first)]
  {
    assert Dropped(d.unpublished, 1) == [first];
  }

  lemma RefreshedLast(client: seq<Card>, log: seq<WsMessage>, from: nat, card: Card)
    requires from <= |log| && card.status == Pending
    ensures card in ApplyAll(client, (log + [CardRefreshed(card)])[from..])
  {
    var events := log[from..];
    assert (log + [CardRefreshed(card)])[from..] == events + [CardRefreshed(card)];
    ApplyAllConcat(client, events, [CardRefreshed(card)]);
    ApplyOne(ApplyAll(client, events), CardRefreshed(card));
    RefreshShows(ApplyAll(client, events), card);
  }

  function TwoRefinements(id: nat, a: string, b: string, confidence: real): seq<Act> {
    [BeginRefine(id), BeginRefine(id), CommitRefine(0, a, confidence), CommitRefine(0, b, confidence)]
  }

  lemma {:induction false} OutOfOrderEnd(q: Queue, id: nat, a: string, b: string, confidence: real)
    returns (first: Card, second: Card)
    requires QueueOk(q) && Actionable(q, id) && q.cards[IndexOf(q.cards, id).value].payload.Reply?
    ensures first.id == second.id == id && first.status == second.status == Pending
    ensures first.payload == Payload.Reply(a, confidence) && second.payload == Payload.Reply(b, confidence)
    ensures second.expiresAt == q.cards[IndexOf(q.cards, id).value].expiresAt
    ensures var d := PerformAll(Desk(q, [], []), TwoRefinements(id, a, b, confidence) + [PublishRefine(1)]
            + [PublishRefine(0)]);
            && d.q.cards == q.cards[IndexOf(q.cards, id).value := second] && d.q.used == q.used && d.q.now == q.now
            && d.q.store == SetRowReply(SetRowReply(q.store, id, b, Pending), id, a, Pending)
            && d.q.log == q.log + [CardRefreshed(second)] + [CardRefreshed(first)]
  {
    var start, four := Desk(q, [], []), TwoRefinements(id, a, b, confidence);
    first, second := TwoCommitted(q, id, a, b, confidence);
    PerformLast(start, four, PublishRefine(1));
    PerformLast(start, four + [PublishRefine(1)], PublishRefine(0));
    PublishLast(PerformAll(start, four), first, second);
  }

  /** Two refinements of one card, published in the other order: nobody decided anything, the card is
      pending everywhere, and store and clients are left with the text that memory has overwritten. */
  lemma {:induction false} PublishedOutOfOrder(
    q: Queue, client: seq<Card>, id: nat, a: string, b: string, confidence: real)
    requires StoreOk(q) && Actionable(q, id) && a != b && id in q.store && !RowPast(q.store[id], q.now)
    requires q.cards[IndexOf(q.cards, id).value].payload.Reply?
    ensures var d := PerformAll(Desk(q, [], []), TwoRefinements(id, a, b, confidence) + [PublishRefine(1)]
            + [PublishRefine(0)]);
            && Actionable(d.q, id) && TextOf(d.q.cards[IndexOf(d.q.cards, id).value].payload) == b
            && id in d.q.store && d.q.store[id].status == Pending && TextOf(d.q.store[id].payload) == a
            && MemoryFace(d.q, id) != StoreFace(d.q.store, d.q.now, id)
            && q.log <= d.q.log
            && exists c ::
                 c in ApplyAll(client, d.q.log[|q.log|..]) && c.id == id && c.payload == Payload.Reply(a, confidence)
  {
    var i := IndexOf(q.cards, id).value;
    var first, second := OutOfOrderEnd(q, id, a, b, confidence);
    var end := PerformAll(Desk(q, [], []), TwoRefinements(id, a, b, confidence) + [PublishRefine(1)]
      + [PublishRefine(0)]).q;
    assert q.cards[i] in q.cards;
    SameIndex(q.cards, i, second);
    OutOfOrderFaces(q, end, id, a, b);
    RefreshedLast(client, q.log + [CardRefreshed(second)], |q.log|, first);
  }

  lemma SameIndex(cards: seq<Card>, i: nat, c: Card)
    requires i < |cards| && IndexOf(cards, c.id) == Some(i)
    ensures IndexOf(cards[i := c], c.id) == Some(i)
  {
    assert forall j | 0 <= j < |cards| :: cards[i := c][j].id == cards[j].id;
  }

  lemma OutOfOrderFaces(q: Queue, after: Queue, id: nat, a: string, b: string)
    requires QueueOk(q) && IndexOf(q.cards, id).Some? && a != b && id in after.store
    requires var i := IndexOf(q.cards, id).value;
             && i < |after.cards| && after.cards == q.cards[i := after.cards[i]] && after.used == q.used
             && after.cards[i].id == id && after.cards[i].payload.Reply? && after.cards[i].payload.text == b
             && after.cards[i].status == Pending && after.cards[i].expiresAt == after.store[id].expiresAt
    requires after.store[id].payload.Reply? && after.store[id].payload.text == a
    requires after.store[id].status == Pending && !RowPast(after.store[id], after.now)
    ensures MemoryFace(after, id) != StoreFace(after.store, after.now, id)
  {
    var i := IndexOf(q.cards, id).value;
    assert forall j | 0 <= j < |q.cards| :: after.cards[j].id == q.cards[j].id;
    assert q.cards[i] in q.cards;
    FaceOf(after, id);
  }

  /** A refinement of a card that is approved before the refinement is published. */
  function DecidedRefine(id: nat, text: string, confidence: real): seq<Act> {
    [BeginRefine(id), CommitRefine(0, text, confidence), Do(Approve(id))]
  }

  /** Committed, then approved, with the publication still to come. */
  lemma {:induction false} ApprovedBeforePublication(q: Queue, id: nat, text: string, confidence: real)
    returns (card: Card)
    requires QueueOk(q) && Actionable(q, id)
    ensures card.id == id && card.status == Pending
    ensures var d := PerformAll(Desk(q, [], []), DecidedRefine(id, text, confidence));
            && AtRest(d.q, id) && d.unpublished == [card]
            && d.q.store == SetRowStatus(q.store, id, Approved) && d.q.now == q.now
            && d.q.log == q.log + [CardUpdate(id, Approved), Badge(CountsOf(d.q.cards, q.now))]
  {
    var start := Desk(q, [], []);
    PerformThree(start, BeginRefine(id), CommitRefine(0, text, confidence), Do(Approve(id)));
    var i := IndexOf(q.cards, id).value;
    assert q.cards[i] in q.cards;
    var begun := Perform(start, BeginRefine(id));
    assert begun.drafting == [id];
    var committed := Perform(begun, CommitRefine(0, text, confidence));
    card := committed.unpublished[0];
    PerformEvolves(begun, CommitRefine(0, text, confidence));
    assert committed.q.cards[i] == card;
    assert Actionable(committed.q, id);
    DecisionRests(committed, Do(Approve(id)), id);
  }

  lemma RefreshShows(client: seq<Card>, card: Card)
    requires card.status == Pending
    ensures card in Apply(client, CardRefreshed(card))
  {
    var i := IndexOf(client, card.id);
    if i.Some? {
      assert client[i.value := card][i.value] == card;
    }
  }

  /** Approved between commit and publication: the store and every client show the card as pending again. */
  lemma {:induction false} LatePublishRevives(q: Queue, client: seq<Card>, id: nat, text: string, confidence: real)
    requires StoreOk(q) && Actionable(q, id) && id in q.store && !RowPast(q.store[id], q.now)
    ensures var d := PerformAll(Desk(q, [], []), DecidedRefine(id, text, confidence) + [PublishRefine(0)]);
            && AtRest(d.q, id)
            && StoreFace(d.q.store, d.q.now, id).Some?
            && q.log <= d.q.log
            && exists c :: c in ApplyAll(client, d.q.log[|q.log|..]) && c.id == id && c.status == Pending
  {
    var acts := DecidedRefine(id, text, confidence);
    var card := ApprovedBeforePublication(q, id, text, confidence);
    PerformLast(Desk(q, [], []), acts, PublishRefine(0));
    PublicationReaches(PerformAll(Desk(q, [], []), acts), card, client, |q.log|);
  }

  lemma PerformLast(d: Desk, acts: seq<Act>, a: Act)
    ensures PerformAll(d, acts + [a]) == Perform(PerformAll(d, acts), a)
  {
    assert (acts + [a])[..|acts|] == acts;
  }

  lemma PublicationReaches(d: Desk, card: Card, client: seq<Card>, from: nat)
    requires d.unpublished == [card] && from <= |d.q.log| && card.status == Pending
    ensures var after := Publish(d, 0).q;
            d.q.log <= after.log && card in ApplyAll(client, after.log[from..])
  {
    RefreshedLast(client, d.q.log, from, card);
  }
}
