/** Refinement in its three phases (read under the lock, commit under the lock, persist and broadcast
    after it), interleaved with every other operation (src/cards/queue.rs). */
module CardLifecycle {
  import opened Cards
  import opened CardReplay
  import opened CardEvolution

  /** `drafting`: refinements waiting for the drafter; `unpublished`: committed, not yet persisted. */
  datatype Desk = Desk(q: Queue, drafting: seq<nat>, unpublished: seq<Card>)

  datatype Act =
    | Do(op: Op)
    | BeginRefine(id: nat)
    | AbandonRefine(k: nat)
    | CommitRefine(k: nat, text: string, confidence: real)
    | PublishRefine(k: nat)

  function Dropped<T>(s: seq<T>, k: nat): seq<T>
    requires k < |s|
  {
    s[..k] + s[k + 1..]
  }

  function Commit(d: Desk, k: nat, text: string, confidence: real): Desk
    requires k < |d.drafting|
  {
    var id := d.drafting[k];
    var rest := d.(drafting := Dropped(d.drafting, k));
    if !Actionable(d.q, id) then rest
    else
      var i := IndexOf(d.q.cards, id).value;
      var card := d.q.cards[i].(payload := Refined(d.q.cards[i].payload, text, confidence), updatedAt := d.q.now);
      rest.(q := d.q.(cards := d.q.cards[i := card]), unpublished := d.unpublished + [card])
  }

  function Publish(d: Desk, k: nat): Desk
    requires k < |d.unpublished|
  {
    var card := d.unpublished[k];
    var text := if card.payload.Reply? then card.payload.text else "";
    d.(unpublished := Dropped(d.unpublished, k),
       q := d.q.(store := SetRowReply(d.q.store, card.id, text, Pending), log := d.q.log + [CardRefreshed(card)]))
  }

  function Perform(d: Desk, a: Act): Desk {
    match a
    case Do(op) => d.(q := Step(d.q, op))
    case BeginRefine(id) => if Actionable(d.q, id) then d.(drafting := d.drafting + [id]) else d
    case AbandonRefine(k) => if k < |d.drafting| then d.(drafting := Dropped(d.drafting, k)) else d
    case CommitRefine(k, text, confidence) => if k < |d.drafting| then Commit(d, k, text, confidence) else d
    case PublishRefine(k) => if k < |d.unpublished| then Publish(d, k) else d
  }

  function PerformAll(d: Desk, acts: seq<Act>): Desk {
    if acts == [] then d else Perform(PerformAll(d, acts[..|acts| - 1]), acts[|acts| - 1])
  }

  lemma PerformTwo(d: Desk, a: Act, b: Act)
    ensures PerformAll(d, [a, b]) == Perform(Perform(d, a), b)
  {
    assert [a, b][..1] == [a] && [a][..0] == [];
    assert PerformAll(d, [a]) == Perform(d, a);
  }

  lemma PerformThree(d: Desk, a: Act, b: Act, c: Act)
    ensures PerformAll(d, [a, b, c]) == Perform(Perform(Perform(d, a), b), c)
  {
    assert [a, b, c][..2] == [a, b];
    PerformTwo(d, a, b);
  }

  /** With nothing in between, the three phases are the atomic refinement. */
  lemma {:induction false} UninterruptedRefine(d: Desk, id: nat, text: string, confidence: real)
    requires d.drafting == [] && d.unpublished == [] && Actionable(d.q, id)
    ensures PerformAll(d, [BeginRefine(id), CommitRefine(0, text, confidence), PublishRefine(0)])
            == d.(q := Step(d.q, Refine(id, text, confidence)))
  {
    PerformThree(d, BeginRefine(id), CommitRefine(0, text, confidence), PublishRefine(0));
    var begun := Perform(d, BeginRefine(id));
    assert begun.drafting == [id] && Dropped(begun.drafting, 0) == [];
    var committed := Perform(begun, CommitRefine(0, text, confidence));
    assert committed.unpublished == [committed.unpublished[0]] && Dropped(committed.unpublished, 0) == [];
  }

  // ---------- no way back ----------

  lemma CommitEvolves(d: Desk, k: nat, text: string, confidence: real)
    requires QueueOk(d.q) && k < |d.drafting|
    ensures QueueOk(Commit(d, k, text, confidence).q) && Evolves(d.q, Commit(d, k, text, confidence).q)
  {
    SameCardsEvolve(d.q.cards);
    if Actionable(d.q, d.drafting[k]) {
      var i := IndexOf(d.q.cards, d.drafting[k]).value;
      UpdateEvolves(d.q.cards, i, Commit(d, k, text, confidence).q.cards[i]);
      assert d.q.cards[i] in d.q.cards;
    }
  }

  lemma {:induction false} PerformEvolves(d: Desk, a: Act)
    requires QueueOk(d.q)
    ensures QueueOk(Perform(d, a).q) && Evolves(d.q, Perform(d, a).q)
  {
    match a
    case Do(op) =>
      StepKeepsOk(d.q, op);
      StepEvolves(d.q, op);
    case CommitRefine(k, text, confidence) =>
      if k < |d.drafting| {
        CommitEvolves(d, k, text, confidence);
      } else {
        SameCardsEvolve(d.q.cards);
      }
    case _ => SameCardsEvolve(d.q.cards);
  }

  /** The id is taken and no card with it is pending. */
  predicate AtRest(q: Queue, id: nat) {
    id in q.used && forall c | c in q.cards && c.id == id :: c.status != Pending
  }

  lemma EvolveKeepsRest(q: Queue, after: Queue, id: nat)
    requires Evolves(q, after) && AtRest(q, id)
    ensures AtRest(after, id)
  {
    forall x | x in after.cards && x.id == id ensures x.status != Pending {
      assert HasAncestor(x, q.cards);
    }
  }

  lemma {:induction false} PerformAllOk(d: Desk, acts: seq<Act>)
    requires QueueOk(d.q)
    ensures QueueOk(PerformAll(d, acts).q) && d.q.used <= PerformAll(d, acts).q.used
  {
    if acts != [] {
      PerformAllOk(d, acts[..|acts| - 1]);
      PerformEvolves(PerformAll(d, acts[..|acts| - 1]), acts[|acts| - 1]);
    }
  }

  /** A card that has left Pending never returns to it, whatever is interleaved. */
  lemma {:induction false} NeverPendingAgain(d: Desk, acts: seq<Act>, id: nat)
    requires QueueOk(d.q) && AtRest(d.q, id)
    ensures AtRest(PerformAll(d, acts).q, id)
  {
    if acts != [] {
      var before := PerformAll(d, acts[..|acts| - 1]);
      NeverPendingAgain(d, acts[..|acts| - 1], id);
      PerformAllOk(d, acts[..|acts| - 1]);
      PerformEvolves(before, acts[|acts| - 1]);
      EvolveKeepsRest(before.q, Perform(before, acts[|acts| - 1]).q, id);
    }
  }

  /** Once a card is resolved its payload, reply text included, never changes again. */
  lemma {:induction false} ResolvedTextIsFrozen(d: Desk, acts: seq<Act>, c: Card, x: Card)
    requires QueueOk(d.q) && c in d.q.cards && c.status != Pending
    requires x in PerformAll(d, acts).q.cards && x.id == c.id
    ensures x.payload == c.payload && x.status != Pending
  {
    if acts == [] {
      DistinctMembers(d.q.cards, c, x);
    } else {
      var front := acts[..|acts| - 1];
      var before := PerformAll(d, front);
      PerformAllOk(d, front);
      PerformEvolves(before, acts[|acts| - 1]);
      assert HasAncestor(x, before.q.cards);
      var y :| y in before.q.cards && Succeeds(x, y);
      ResolvedTextIsFrozen(d, front, c, y);
    }
  }

  // ---------- one decision per card ----------

  predicate Decides(a: Act, id: nat) {
    a.Do? && (a.op == Approve(id) || a.op == Dismiss(id) || (a.op.Edit? && a.op.id == id))
  }

  /** How many approve, dismiss or edit calls on a card succeed in a run. */
  function Decisions(d: Desk, acts: seq<Act>, id: nat): nat {
    if acts == [] then 0
    else
      var front := acts[..|acts| - 1];
      Decisions(d, front, id)
      + if Decides(acts[|acts| - 1], id) && Actionable(PerformAll(d, front).q, id) then 1 else 0
  }

  lemma {:induction false} DecisionRests(d: Desk, a: Act, id: nat)
    requires QueueOk(d.q) && Decides(a, id) && Actionable(d.q, id)
    ensures AtRest(Perform(d, a).q, id)
  {
    var i := IndexOf(d.q.cards, id).value;
    var after := Perform(d, a).q;
    assert d.q.cards[i] in d.q.cards;
    assert after.cards == d.q.cards[i := after.cards[i]];
    assert forall k | 0 <= k < |after.cards| && after.cards[k].id == id :: k == i;
  }

  lemma RestIsNotActionable(q: Queue, id: nat)
    requires AtRest(q, id)
    ensures !Actionable(q, id)
  {
    var i := IndexOf(q.cards, id);
    assert i.Some? ==> q.cards[i.value] in q.cards;
  }

  /** At most one of approve, dismiss and edit ever succeeds on a card. */
  lemma {:induction false} OneDecisionPerCard(d: Desk, acts: seq<Act>, id: nat)
    requires QueueOk(d.q)
    ensures Decisions(d, acts, id) <= 1
    ensures Decisions(d, acts, id) == 1 ==> AtRest(PerformAll(d, acts).q, id)
  {
    if acts != [] {
      var front, a := acts[..|acts| - 1], acts[|acts| - 1];
      var before := PerformAll(d, front);
      OneDecisionPerCard(d, front, id);
      PerformAllOk(d, front);
      PerformEvolves(before, a);
      if AtRest(before.q, id) {
        RestIsNotActionable(before.q, id);
        EvolveKeepsRest(before.q, Perform(before, a).q, id);
      } else if Decides(a, id) && Actionable(before.q, id) {
        DecisionRests(before, a, id);
      }
    }
  }
}
