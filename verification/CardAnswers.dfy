/** What each card operation does to the card, its row and the broadcast, and what brought a card to the
    status it is found in (src/cards/queue.rs). */
module CardAnswers {
  import opened Wrappers
  import opened Filtering
  import opened Cards
  import opened CardReplay
  import opened CardLifecycle

  /** The card now has this status and payload; its identity, silo and expiry are as before. */
  predicate Became(before: Card, after: Card, status: CardStatus, payload: Payload) {
    && after.id == before.id && after.silo == before.silo && after.expiresAt == before.expiresAt
    && after.status == status && after.payload == payload
  }

  /** Exactly the one card changed; its row, if there is one, has the same status and payload; and the new
      status was broadcast, followed by the counts. */
  predicate Decided(
    q: Queue, after: Queue, i: nat, status: CardStatus, payload: Payload, rowPayload: Option<Payload>)
    requires i < |q.cards|
  {
    var id := q.cards[i].id;
    && |after.cards| == |q.cards| && (forall k | 0 <= k < |q.cards| && k != i :: after.cards[k] == q.cards[k])
    && Became(q.cards[i], after.cards[i], status, payload)
    && after.store - {id} == q.store - {id}
    && (id in q.store ==>
          && rowPayload.Some? && id in after.store
          && after.store[id] == q.store[id].(status := status, payload := rowPayload.value))
    && |after.log| == |q.log| + 2 && after.log[..|q.log|] == q.log
    && after.log[|q.log|] == CardUpdate(id, status) && after.log[|q.log| + 1] == Badge(CountsOf(after.cards, after.now))
    && after.now == q.now && after.used == q.used
  }

  /** The first card with the id is there and pending, run out or not. */
  predicate IsPendingNow(q: Queue, id: nat) {
    var i := IndexOf(q.cards, id);
    i.Some? && q.cards[i.value].status == Pending
  }

  function RowPayload(q: Queue, id: nat): Option<Payload> {
    if id in q.store then Some(q.store[id].payload) else None
  }

  /** A pending card approved, dismissed or sent: that status, the same payload, in memory and in the row. */
  lemma {:induction false} ApproveAnswer(q: Queue, id: nat)
    requires IsPendingNow(q, id)
    ensures var i := IndexOf(q.cards, id).value;
            Decided(q, Step(q, Approve(id)), i, Approved, q.cards[i].payload, RowPayload(q, id))
  {
  }

  lemma {:induction false} DismissAnswer(q: Queue, id: nat)
    requires IsPendingNow(q, id)
    ensures var i := IndexOf(q.cards, id).value;
            Decided(q, Step(q, Dismiss(id)), i, Dismissed, q.cards[i].payload, RowPayload(q, id))
  {
  }

  lemma {:induction false} MarkSentAnswer(q: Queue, id: nat)
    requires IndexOf(q.cards, id).Some?
    ensures var i := IndexOf(q.cards, id).value;
            Decided(q, Step(q, MarkSent(id)), i, Sent, q.cards[i].payload, RowPayload(q, id))
  {
  }

  /** An edit approves with the new text, in memory and in the row; what has no reply text keeps its payload. */
  function Retexted(p: Payload, text: string): Payload {
    match p
    case Reply(_, confidence) => Payload.Reply(text, confidence)
    case Other(kind, body) => Other(kind, body)
  }

  lemma {:induction false} EditAnswer(q: Queue, id: nat, text: string)
    requires IsPendingNow(q, id)
    ensures var i := IndexOf(q.cards, id).value;
            var row := RowPayload(q, id);
            Decided(q, Step(q, Edit(id, text)), i, Approved, Retexted(q.cards[i].payload, text),
                    if row.Some? then Some(Retexted(row.value, text)) else None)
  {
  }

  /** A refinement keeps the card pending, with the new text and confidence in memory and in the broadcast,
      and the new text in the row. */
  lemma {:induction false} RefineAnswer(q: Queue, id: nat, text: string, confidence: real)
    requires IsPendingNow(q, id)
    ensures var i, after := IndexOf(q.cards, id).value, Step(q, Refine(id, text, confidence));
            && |after.cards| == |q.cards| && (forall k | 0 <= k < |q.cards| && k != i :: after.cards[k] == q.cards[k])
            && Became(q.cards[i], after.cards[i], Pending,
                      if q.cards[i].payload.Reply? then Payload.Reply(text, confidence) else q.cards[i].payload)
            && after.log == q.log + [CardRefreshed(after.cards[i])]
            && (id in q.store && q.cards[i].payload.Reply? ==>
                  && id in after.store && after.store[id].status == Pending
                  && after.store[id].payload == Retexted(q.store[id].payload, text))
  {
  }

  /** A card that is unknown or no longer pending is not touched by a decision or a refinement. */
  lemma NotActionable(q: Queue, id: nat, text: string, confidence: real)
    requires !IsPendingNow(q, id)
    ensures Step(q, Approve(id)) == q && Step(q, Dismiss(id)) == q && Step(q, Edit(id, text)) == q
    ensures Step(q, Refine(id, text, confidence)) == q
  {
  }

  /** A pushed card is the last one, as it was given, in memory, in the store and in the announcement. */
  lemma {:induction false} PushAnswer(q: Queue, id: nat, silo: CardSilo, payload: Payload, expiresAt: Option<int>)
    requires id !in q.used
    ensures var after := Step(q, Push(id, silo, payload, expiresAt));
            && |after.cards| == |q.cards| + 1 && after.cards[..|q.cards|] == q.cards
            && var card := after.cards[|q.cards|];
               && card.id == id && card.silo == silo && card.payload == payload && card.expiresAt == expiresAt
               && card.status == Pending
               && id in after.store && after.store[id] == Row(silo, payload, Pending, expiresAt)
               && after.log == q.log + [Badge(CountsOf(after.cards, q.now)), NewCard(card)]
  {
  }

  /** The sweep: pending cards past their expiry become expired and nothing else about any card changes
      before the pruning; the store expires pending rows from their expiry instant on; each card that ran
      out is announced, in order, and the counts follow if there was one. */
  lemma {:induction false} SweepAnswer(q: Queue)
    ensures var after, due := Step(q, ExpireOld), Filter(q.cards, IsDue(q.now));
            && after.cards == Pruned(SweptAll(q.cards, q.now)) && |SweptAll(q.cards, q.now)| == |q.cards|
            && (forall k | 0 <= k < |q.cards| ::
                  var c, swept := q.cards[k], SweptAll(q.cards, q.now)[k];
                  if c.status == Pending && c.expiresAt.Some? && q.now > c.expiresAt.value
                  then Became(c, swept, Expired, c.payload) else swept == c)
            && after.store.Keys == q.store.Keys
            && (forall id | id in q.store ::
                  var row := q.store[id];
                  after.store[id]
                  == if row.status == Pending && row.expiresAt.Some? && row.expiresAt.value <= q.now
                     then row.(status := Expired) else row)
            && |after.log| == |q.log| + |due| + (if due == [] then 0 else 1) && after.log[..|q.log|] == q.log
            && (forall k | 0 <= k < |due| :: after.log[|q.log| + k] == CardExpired(due[k].id))
            && (due != [] ==> after.log[|q.log| + |due|] == Badge(CountsOf(after.cards, q.now)))
  {
    SweptAt(q.cards, q.now);
  }

  // ---------- every status has its cause ----------

  /** The act that can bring a card to a status. A card is dismissed by nothing but a dismissal of it while it
      was pending, and so on; the sweep expires only what has run out. */
  predicate Causes(q: Queue, a: Act, c: Card) {
    a.Do? &&
    match c.status
    case Pending => false
    case Approved => (a.op == Approve(c.id) || (a.op.Edit? && a.op.id == c.id)) && Actionable(q, c.id)
    case Dismissed => a.op == Dismiss(c.id) && Actionable(q, c.id)
    case Sent => a.op == MarkSent(c.id) && IndexOf(q.cards, c.id).Some?
    case Expired => a.op == ExpireOld && c.expiresAt.Some? && q.now > c.expiresAt.value
  }

  predicate SameStanding(x: Card, c: Card) {
    x.id == c.id && x.status == c.status && x.expiresAt == c.expiresAt
  }

  /** The card was there with this status before. */
  predicate WasSo(q: Queue, c: Card) {
    exists x :: x in q.cards && SameStanding(x, c)
  }

  lemma UpdateCause(cards: seq<Card>, i: nat, updated: Card, c: Card)
    requires i < |cards| && c in cards[i := updated] && c != updated
    ensures exists x :: x in cards && SameStanding(x, c)
  {
    assert c in cards && SameStanding(c, c);
  }

  lemma {:induction false} ActionCause(q: Queue, op: Op, c: Card)
    requires QueueOk(q) && c.status != Pending && c in Step(q, op).cards
    requires op.Approve? || op.Dismiss? || op.Edit? || op.Refine? || op.MarkSent?
    ensures WasSo(q, c) || Causes(q, Do(op), c)
  {
    var found := IndexOf(q.cards, op.id);
    var after := Step(q, op).cards;
    if found.Some? && (op.MarkSent? || q.cards[found.value].status == Pending) {
      var i := found.value;
      assert after == q.cards[i := after[i]];
      if c != after[i] {
        UpdateCause(q.cards, i, after[i], c);
      }
    }
  }

  lemma {:induction false} SweepCause(q: Queue, c: Card)
    requires QueueOk(q) && c.status != Pending && c in ExpireStep(q).cards
    ensures WasSo(q, c) || Causes(q, Do(ExpireOld), c)
  {
    SweepKeepsOk(q.cards, q.now);
    var x :| x in q.cards && c == Swept(x, q.now);
  }

  lemma {:induction false} StepCause(q: Queue, op: Op, c: Card)
    requires QueueOk(q) && c.status != Pending && c in Step(q, op).cards
    ensures WasSo(q, c) || Causes(q, Do(op), c)
  {
    match op
    case Push(id, silo, payload, expiresAt) =>
    case Approve(_) => ActionCause(q, op, c);
    case Dismiss(_) => ActionCause(q, op, c);
    case Edit(_, _) => ActionCause(q, op, c);
    case Refine(_, _, _) => ActionCause(q, op, c);
    case MarkSent(_) => ActionCause(q, op, c);
    case ExpireOld => SweepCause(q, c);
    case Advance(_) =>
  }

  lemma {:induction false} PerformCause(d: Desk, a: Act, c: Card)
    requires QueueOk(d.q) && c.status != Pending && c in Perform(d, a).q.cards
    ensures WasSo(d.q, c) || Causes(d.q, a, c)
  {
    match a
    case Do(op) => StepCause(d.q, op, c);
    case BeginRefine(_) =>
    case AbandonRefine(_) =>
    case CommitRefine(k, text, confidence) =>
      if k < |d.drafting| && Actionable(d.q, d.drafting[k]) {
        var i := IndexOf(d.q.cards, d.drafting[k]).value;
        UpdateCause(d.q.cards, i, Perform(d, a).q.cards[i], c);
      }
    case PublishRefine(_) =>
  }

  /** A card found with a status other than Pending was found so at the start, or the run contains the act
      that brought it there: an approved card was approved or edited while pending, a dismissed one
      dismissed while pending, a sent one marked sent, an expired one swept after its expiry. */
  lemma {:induction false} StatusHasItsCause(d: Desk, acts: seq<Act>, c: Card)
    requires QueueOk(d.q) && c.status != Pending && c in PerformAll(d, acts).q.cards
    ensures WasSo(d.q, c) || exists k :: 0 <= k < |acts| && CausedAt(d, acts, k, c)
  {
    if acts != [] {
      var front, a := acts[..|acts| - 1], acts[|acts| - 1];
      var before := PerformAll(d, front);
      PerformAllOk(d, front);
      PerformCause(before, a, c);
      if Causes(before.q, a, c) {
        assert CausedAt(d, acts, |front|, c);
      } else {
        var x :| x in before.q.cards && SameStanding(x, c);
        StatusHasItsCause(d, front, x);
        if !WasSo(d.q, x) {
          var k :| 0 <= k < |front| && CausedAt(d, front, k, x);
          assert acts[..k] == front[..k] && acts[k] == front[k];
          assert CausedAt(d, acts, k, c);
        }
      }
    }
  }

  /** The `k`-th act of a run brings the card to its status. */
  predicate CausedAt(d: Desk, acts: seq<Act>, k: nat, c: Card)
    requires k < |acts|
  {
    Causes(PerformAll(d, acts[..k]).q, acts[k], c)
  }
}
