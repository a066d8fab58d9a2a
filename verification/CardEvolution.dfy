/** What one queue operation can do to the cards already known. */
module CardEvolution {
  import opened Wrappers
  import opened Cards
  import opened CardReplay

  /** Both replies, whose text may differ, or the very same other payload. */
  predicate Kindred(p: Payload, q: Payload) {
    if p.Reply? then q.Reply? else p == q
  }

  /** `x` is a later version of `y`: same id, silo and expiry, never pending again, frozen once resolved. */
  predicate Succeeds(x: Card, y: Card) {
    && x.id == y.id && x.expiresAt == y.expiresAt && x.silo == y.silo && Kindred(x.payload, y.payload)
    && (x.status == Pending ==> y.status == Pending)
    && (y.status != Pending ==> x.payload == y.payload)
  }

  predicate HasAncestor(x: Card, cards: seq<Card>) {
    exists y :: y in cards && Succeeds(x, y)
  }

  /** Every card is a later version of an earlier one, or has an id never used before. */
  predicate Evolves(q: Queue, after: Queue) {
    && q.used <= after.used
    && (forall x | x in after.cards :: HasAncestor(x, q.cards) || x.id !in q.used)
  }

  lemma UpdateEvolves(cards: seq<Card>, i: nat, c: Card)
    requires i < |cards| && Succeeds(c, cards[i])
    ensures forall x | x in cards[i := c] :: HasAncestor(x, cards)
  {
    forall x | x in cards[i := c] ensures HasAncestor(x, cards) {
      if x == c {
        assert cards[i] in cards;
      } else {
        assert x in cards && Succeeds(x, x);
      }
    }
  }

  lemma SweepEvolves(cards: seq<Card>, now: int)
    requires Distinct(cards)
    ensures forall x | x in Pruned(SweptAll(cards, now)) :: HasAncestor(x, cards)
  {
    SweepKeepsOk(cards, now);
    forall x | x in Pruned(SweptAll(cards, now)) ensures HasAncestor(x, cards) {
      var y :| y in cards && x == Swept(y, now);
      assert Succeeds(x, y);
    }
  }

  lemma SameCardsEvolve(cards: seq<Card>)
    ensures forall x | x in cards :: HasAncestor(x, cards)
  {
    forall x | x in cards ensures HasAncestor(x, cards) {
      assert Succeeds(x, x);
    }
  }

  lemma StepEvolves(q: Queue, op: Op)
    requires QueueOk(q)
    ensures Evolves(q, Step(q, op))
  {
    SameCardsEvolve(q.cards);
    match op
    case Push(id, silo, payload, expiresAt) =>
    case Approve(id) => ActionEvolves(q, op, id);
    case Dismiss(id) => ActionEvolves(q, op, id);
    case Edit(id, text) => ActionEvolves(q, op, id);
    case Refine(id, text, confidence) => ActionEvolves(q, op, id);
    case MarkSent(id) => ActionEvolves(q, op, id);
    case ExpireOld => SweepEvolves(q.cards, q.now);
    case Advance(seconds) =>
  }

  /** The operations that touch the one card with a given id. */
  predicate Targets(op: Op, id: nat) {
    op == Approve(id) || op == Dismiss(id) || op == MarkSent(id) || (op.Edit? && op.id == id)
      || (op.Refine? && op.id == id)
  }

  lemma {:induction false} ActionEvolves(q: Queue, op: Op, id: nat)
    requires QueueOk(q) && Targets(op, id)
    ensures forall x | x in Step(q, op).cards :: HasAncestor(x, q.cards)
    ensures Step(q, op).used == q.used
  {
    SameCardsEvolve(q.cards);
    var i := IndexOf(q.cards, id);
    if i.Some? && (op.MarkSent? || q.cards[i.value].status == Pending) {
      ActionUpdates(q, op, i.value);
      UpdateEvolves(q.cards, i.value, Step(q, op).cards[i.value]);
    }
  }

  lemma {:induction false} ActionUpdates(q: Queue, op: Op, i: nat)
    requires i < |q.cards| && IndexOf(q.cards, q.cards[i].id) == Some(i) && Targets(op, q.cards[i].id)
    requires op.MarkSent? || q.cards[i].status == Pending
    ensures var after := Step(q, op);
            && after.used == q.used && |after.cards| == |q.cards|
            && after.cards == q.cards[i := after.cards[i]] && Succeeds(after.cards[i], q.cards[i])
  {
  }
}
