/** The queue itself, edited in place (src/cards/queue.rs). */
module CardQueues {
  import opened Wrappers
  import opened Filtering
  import opened Cards
  import opened CardReplay
  import opened CardStore
  import opened CardLifecycle
  import opened CardAnswers

  function AsSeq<T>(o: Option<T>): seq<T> {
    if o.Some? then [o.value] else []
  }

  method CountResolved(cards: seq<Card>) returns (n: nat)
    ensures n == |Filter(cards, IsResolved())|
  {
    n := 0;
    for i := 0 to |cards|
      invariant n == |Filter(cards[..i], IsResolved())|
    {
      assert cards[..i + 1][..i] == cards[..i];
      if cards[i].status != Pending {
        n := n + 1;
      }
    }
    assert cards[..|cards|] == cards;
  }

  /** Keep everything but the first `toRemove` resolved cards. */
  method Retain(cards: seq<Card>, toRemove: nat) returns (kept: seq<Card>)
    ensures kept == DropResolved(cards, toRemove)
  {
    kept := [];
    var removed := 0;
    assert cards[0..] == cards;
    for i := 0 to |cards|
      invariant 0 <= removed <= toRemove
      invariant kept + DropResolved(cards[i..], toRemove - removed) == DropResolved(cards, toRemove)
    {
      assert cards[i..][0] == cards[i] && cards[i..][1..] == cards[i + 1..];
      if cards[i].status != Pending && removed < toRemove {
        removed := removed + 1;
      } else {
        ConsMoves(kept, cards[i], DropResolved(cards[i + 1..], toRemove - removed));
        kept := kept + [cards[i]];
      }
    }
  }

  lemma ConsMoves<T>(a: seq<T>, x: T, b: seq<T>)
    ensures a + ([x] + b) == (a + [x]) + b
  {
  }

  lemma SweepOneMore(cards: seq<Card>, i: nat, now: int)
    requires i < |cards|
    ensures SweptAll(cards[..i + 1], now) == SweptAll(cards[..i], now) + [Swept(cards[i], now)]
    ensures Filter(cards[..i + 1], IsDue(now))
            == Filter(cards[..i], IsDue(now)) + if cards[i].status == Pending && IsExpired(cards[i], now)
              then [cards[i]] else []
  {
    assert cards[..i + 1][..i] == cards[..i];
  }

  lemma ExpiryEventsMore(due: seq<Card>, card: Card)
    ensures ExpiryEvents(due + [card]) == ExpiryEvents(due) + [CardExpired(card.id)]
  {
  }

  lemma SweepAdvances(cards: seq<Card>, was: seq<Card>, i: nat, now: int)
    requires i < |was| && cards == SweptAll(was[..i], now) + was[i..] && |SweptAll(was[..i], now)| == i
    ensures |cards| == |was| && cards[i] == was[i]
    ensures cards[i := Swept(was[i], now)] == SweptAll(was[..i + 1], now) + was[i + 1..]
    ensures |SweptAll(was[..i + 1], now)| == i + 1
  {
    SweepOneMore(was, i, now);
  }

  class CardQueue {
    var cards: seq<Card>
    var store: Store
    var log: seq<WsMessage>
    var now: int
    ghost var used: set<nat>

    ghost function View(): Queue
      reads this
    {
      Queue(cards, store, log, now, used)
    }

    /** Loads the store's pending cards. */
    constructor WithDb(loaded: seq<Card>, db: Store, clock: int)
      requires Loads(loaded, db, clock)
      ensures View() == Queue(loaded, db, [], clock, db.Keys)
      ensures StoreOk(View())
    {
      cards, store, log, now, used := loaded, db, [], clock, db.Keys;
    }

    method Find(id: nat) returns (found: Option<nat>)
      ensures found == IndexOf(cards, id)
    {
      for i := 0 to |cards|
        invariant forall k | 0 <= k < i :: cards[k].id != id
      {
        if cards[i].id == id {
          return Some(i);
        }
      }
      return None;
    }

    method BroadcastSiloCounts()
      modifies this`log
      ensures log == old(log) + [Badge(CountsOf(cards, now))]
    {
      var counts := FromCards(cards, now);
      log := log + [Badge(counts)];
    }

    method Push(card: Card)
      requires card.id !in used
      modifies this
      ensures View() == PushStep(old(View()), card)
    {
      store := store[card.id := Row(card.silo, card.payload, card.status, card.expiresAt)];
      cards := cards + [card];
      used := used + {card.id};
      BroadcastSiloCounts();
      log := log + [NewCard(card)];
    }

    method Approve(id: nat) returns (r: Option<Card>)
      modifies this
      ensures View() == Step(old(View()), Op.Approve(id))
      ensures r.Some? <==> Actionable(old(View()), id)
      ensures r.Some? ==> r.value in cards && r.value.id == id && r.value.status == Approved
      ensures r.Some? ==> r.value.payload == old(cards)[IndexOf(old(cards), id).value].payload
    {
      var i := Find(id);
      if i.None? || cards[i.value].status != Pending {
        return None;
      }
      store := SetRowStatus(store, id, Approved);
      cards := cards[i.value := cards[i.value].(status := Approved, updatedAt := now)];
      log := log + [CardUpdate(id, Approved)];
      BroadcastSiloCounts();
      return Some(cards[i.value]);
    }

    method Dismiss(id: nat) returns (r: Option<Card>)
      modifies this
      ensures View() == Step(old(View()), Op.Dismiss(id))
      ensures r.Some? <==> Actionable(old(View()), id)
      ensures r.Some? ==> r.value in cards && r.value.id == id && r.value.status == Dismissed
      ensures r.Some? ==> r.value.payload == old(cards)[IndexOf(old(cards), id).value].payload
    {
      var i := Find(id);
      if i.None? || cards[i.value].status != Pending {
        return None;
      }
      store := SetRowStatus(store, id, Dismissed);
      cards := cards[i.value := cards[i.value].(status := Dismissed, updatedAt := now)];
      log := log + [CardUpdate(id, Dismissed)];
      BroadcastSiloCounts();
      return Some(cards[i.value]);
    }

    method Edit(id: nat, text: string) returns (r: Option<Card>)
      modifies this
      ensures View() == Step(old(View()), Op.Edit(id, text))
      ensures r.Some? <==> Actionable(old(View()), id)
      ensures r.Some? ==> r.value in cards && r.value.id == id && r.value.status == Approved
      ensures r.Some? ==> r.value.payload == Retexted(old(cards)[IndexOf(old(cards), id).value].payload, text)
    {
      var i := Find(id);
      if i.None? || cards[i.value].status != Pending {
        return None;
      }
      store := SetRowReply(store, id, text, Approved);
      var card := cards[i.value];
      if card.payload.Reply? {
        card := card.(payload := card.payload.(text := text));
      }
      cards := cards[i.value := card.(status := Approved, updatedAt := now)];
      log := log + [CardUpdate(id, Approved)];
      BroadcastSiloCounts();
      return Some(cards[i.value]);
    }

    /** Phase one: read the card under the lock. */
    method SnapshotForRefine(id: nat) returns (r: Option<Card>)
      ensures r.Some? <==> Actionable(View(), id)
      ensures r.Some? ==> r.value in cards && r.value.id == id
    {
      var i := Find(id);
      if i.None? || cards[i.value].status != Pending {
        return None;
      }
      return Some(cards[i.value]);
    }

    /** Phase two: look the card up again and change it only if it is still pending. */
    method CommitRefinement(id: nat, text: string, confidence: real) returns (r: Option<Card>)
      modifies this`cards
      ensures Desk(View(), [], AsSeq(r)) == Commit(Desk(old(View()), [id], []), 0, text, confidence)
    {
      var i := Find(id);
      assert Dropped([id], 0) == [];
      if i.None? || cards[i.value].status != Pending {
        return None;
      }
      var card := cards[i.value];
      if card.payload.Reply? {
        card := card.(payload := card.payload.(text := text, confidence := confidence));
      }
      cards := cards[i.value := card.(updatedAt := now)];
      return Some(cards[i.value]);
    }

    /** Phase three: persist and broadcast, whatever has happened to the card since. */
    method PublishRefinement(card: Card)
      modifies this`store, this`log
      ensures Desk(View(), [], []) == Publish(Desk(old(View()), [], [card]), 0)
    {
      assert Dropped([card], 0) == [];
      var text := if card.payload.Reply? then card.payload.text else "";
      store := SetRowReply(store, card.id, text, Pending);
      log := log + [CardRefreshed(card)];
    }

    method PendingCards() returns (shown: seq<Card>)
      ensures shown == Visible(cards, now)
    {
      shown := [];
      for i := 0 to |cards|
        invariant shown == Visible(cards[..i], now)
      {
        assert cards[..i + 1][..i] == cards[..i];
        if cards[i].status == Pending && !IsExpired(cards[i], now) {
          shown := shown + [cards[i]];
        }
      }
      assert cards[..|cards|] == cards;
    }

    method MarkSent(id: nat) returns (found: bool)
      modifies this
      ensures View() == Step(old(View()), Op.MarkSent(id))
      ensures found == IndexOf(old(cards), id).Some?
    {
      var i := Find(id);
      if i.None? {
        return false;
      }
      store := SetRowStatus(store, id, Sent);
      cards := cards[i.value := cards[i.value].(status := Sent, updatedAt := now)];
      log := log + [CardUpdate(id, Sent)];
      BroadcastSiloCounts();
      return true;
    }

    /** Mark what has run out, announcing each card. */
    method SweepExpired() returns (count: nat)
      modifies this`cards, this`log
      ensures cards == SweptAll(old(cards), now)
      ensures count == |Filter(old(cards), IsDue(now))|
      ensures log == old(log) + ExpiryEvents(Filter(old(cards), IsDue(now)))
    {
      var was := cards;
      ghost var due: seq<Card> := [];
      count := 0;
      for i := 0 to |was|
        invariant cards == SweptAll(was[..i], now) + was[i..] && |SweptAll(was[..i], now)| == i
        invariant due == Filter(was[..i], IsDue(now)) && count == |due|
        invariant log == old(log) + ExpiryEvents(due)
      {
        SweepOneMore(was, i, now);
        SweepAdvances(cards, was, i, now);
        var card := cards[i];
        if card.status == Pending && IsExpired(card, now) {
          ExpiryEventsMore(due, card);
          due := due + [card];
          cards := cards[i := card.(status := Expired, updatedAt := now)];
          count := count + 1;
          log := log + [CardExpired(card.id)];
        }
      }
      assert was[..|was|] == was && was[|was|..] == [];
    }

    /** Forget the oldest resolved cards once there are too many. */
    method Prune()
      modifies this`cards
      ensures cards == Pruned(old(cards))
    {
      DropNone(cards);
      if |cards| > PRUNE_ABOVE {
        var resolved := CountResolved(cards);
        if resolved > KEEP_RESOLVED {
          cards := Retain(cards, resolved - KEEP_RESOLVED);
        }
      }
    }

    method ExpireOld() returns (count: nat)
      modifies this
      ensures View() == ExpireStep(old(View()))
      ensures count == |Filter(old(cards), IsDue(old(now)))|
    {
      store := ExpireRows(store, now);
      count := SweepExpired();
      Prune();
      if count > 0 {
        BroadcastSiloCounts();
      }
    }
  }
}
