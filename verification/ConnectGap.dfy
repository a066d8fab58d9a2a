/** On connecting, the snapshot is taken before the client is subscribed: what is broadcast in between never
    reaches it (src/cards/ws.rs). */
module ConnectGap {
  import opened Wrappers
  import opened Filtering
  import opened Cards
  import opened CardReplay
  import opened CardEvolution
  import opened LagResync

  /** Some missed event carries a card that is shown now and that the snapshot does not hold as it is. */
  predicate MissesCard(snapshot: seq<Card>, q: Queue, from: nat)
    requires from <= |q.log|
  {
    exists e :: e in q.log[from..] && Carries(e) && e.card in Visible(q.cards, q.now) && e.card !in snapshot
  }

  /** Some missed event removes a card of the snapshot that has not run out. */
  predicate MissesRemoval(snapshot: seq<Card>, q: Queue, from: nat)
    requires from <= |q.log|
  {
    exists e, c :: e in q.log[from..] && Removes(e) && c in snapshot && About(e) == Some(c.id) && !IsExpired(c, q.now)
  }

  /** What the copies of a card are made of: the old ones and the ones carried by events. */
  lemma {:induction false} CopiesCome(copies: seq<Card>, events: seq<WsMessage>, id: nat)
    requires Plain(events)
    ensures forall c | c in TouchAll(copies, events, id) ::
              c in copies || exists e :: e in events && Carries(e) && e.card == c
    ensures copies != [] && (forall e | e in events && About(e) == Some(id) :: !Removes(e))
            ==> TouchAll(copies, events, id) != []
  {
    if events != [] {
      var front, e := events[..|events| - 1], events[|events| - 1];
      assert e in events && forall x | x in front :: x in events;
      CopiesCome(copies, front, id);
    }
  }

  /** A card known at the start is a later version of what it was. */
  lemma {:induction false} RunEvolves(q: Queue, ops: seq<Op>, x: Card)
    requires QueueOk(q) && x in Run(q, ops).cards && x.id in q.used
    ensures exists y :: y in q.cards && y.id == x.id && y.expiresAt == x.expiresAt
  {
    if ops != [] {
      var front := ops[..|ops| - 1];
      RunKeepsOk(q, front);
      StepEvolves(Run(q, front), ops[|ops| - 1]);
      assert HasAncestor(x, Run(q, front).cards);
      var y :| y in Run(q, front).cards && Succeeds(x, y);
      RunEvolves(q, front, y);
    }
  }

  /** What a replaying client would hold of a shown card came from the snapshot or from an event. */
  lemma {:induction false} ShownCameFrom(snapshot: seq<Card>, q: Queue, from: nat, x: Card)
    requires from <= |q.log| && Plain(q.log[from..]) && Agrees(ApplyAll(snapshot, q.log[from..]), q)
    requires x in Visible(q.cards, q.now) && !MissesCard(snapshot, q, from)
    ensures x in snapshot
  {
    var replayed, events := ApplyAll(snapshot, q.log[from..]), q.log[from..];
    FilterMembers(replayed, Unexpired(q.now), x);
    ApplyAllTouches(snapshot, events, x.id);
    CopiesMembers(replayed, x.id, x);
    CopiesCome(Copies(snapshot, x.id), events, x.id);
    CopiesMembers(snapshot, x.id, x);
  }

  /** A snapshot card that was not removed and has not run out is still shown, in some version. */
  lemma {:induction false} SnapshotStays(before: Queue, gap: seq<Op>, c: Card) returns (x: Card)
    requires QueueOk(before) && c in Visible(before.cards, before.now)
    requires var q := Run(before, gap);
             && before.log <= q.log && Plain(q.log[|before.log|..]) && !IsExpired(c, q.now)
             && Agrees(ApplyAll(Visible(before.cards, before.now), q.log[|before.log|..]), q)
             && !MissesRemoval(Visible(before.cards, before.now), q, |before.log|)
    ensures x.id == c.id && x in Visible(Run(before, gap).cards, Run(before, gap).now)
  {
    var q, snapshot := Run(before, gap), Visible(before.cards, before.now);
    var events := q.log[|before.log|..];
    var replayed := ApplyAll(snapshot, events);
    ApplyAllTouches(snapshot, events, c.id);
    CopiesMembers(snapshot, c.id, c);
    CopiesCome(Copies(snapshot, c.id), events, c.id);
    x := Copies(replayed, c.id)[0];
    assert x in Copies(replayed, c.id);
    CopiesMembers(replayed, c.id, x);
    FilterMembers(before.cards, Shown(before.now), c);
    RunEvolves(before, gap, x);
    var y :| y in before.cards && y.id == x.id && y.expiresAt == x.expiresAt;
    DistinctMembers(before.cards, y, c);
    FilterMembers(q.cards, Shown(q.now), x);
  }

  /** Nothing missed that matters: snapshot and queue show the same cards. */
  lemma {:induction false} SameShown(before: Queue, gap: seq<Op>, c: Card)
    requires QueueOk(before)
    requires var q := Run(before, gap);
             && before.log <= q.log && Plain(q.log[|before.log|..])
             && Agrees(ApplyAll(Visible(before.cards, before.now), q.log[|before.log|..]), q)
             && !MissesCard(Visible(before.cards, before.now), q, |before.log|)
             && !MissesRemoval(Visible(before.cards, before.now), q, |before.log|)
    ensures c in Visible(Run(before, gap).cards, Run(before, gap).now)
            <==> c in Visible(before.cards, before.now) && !IsExpired(c, Run(before, gap).now)
  {
    var q, snapshot := Run(before, gap), Visible(before.cards, before.now);
    if c in Visible(q.cards, q.now) {
      ShownCameFrom(snapshot, q, |before.log|, c);
      FilterMembers(q.cards, Shown(q.now), c);
    } else if c in snapshot && !IsExpired(c, q.now) {
      var x := SnapshotStays(before, gap, c);
      ShownCameFrom(snapshot, q, |before.log|, x);
      FilterDistinct(before.cards, Shown(before.now));
      DistinctMembers(snapshot, x, c);
      assert false;
    }
  }

  /** The cards shown now kept their places in the snapshot. */
  lemma {:induction false} GapKeepsOrder(before: Queue, gap: seq<Op>, ids: set<nat>)
    requires QueueOk(before)
    requires var q := Run(before, gap);
             && before.log <= q.log && LogOk(q) && Plain(q.log[|before.log|..])
             && (forall i | |before.log| <= i < |q.log| && q.log[i].NewCard? :: q.log[i].card.id !in before.used)
    requires forall id | id in ids :: id in IdsOf(Visible(before.cards, before.now))
    requires forall id :: id in ids <==> id in IdsOf(Visible(Run(before, gap).cards, Run(before, gap).now))
    ensures var snapshot := Visible(before.cards, before.now);
            IdsOf(Filter(ApplyAll(snapshot, Run(before, gap).log[|before.log|..]), Among(ids)))
            == IdsOf(Filter(snapshot, Among(ids)))
  {
    var q, snapshot := Run(before, gap), Visible(before.cards, before.now);
    var events, shown := q.log[|before.log|..], Visible(q.cards, q.now);
    forall e | e in events ensures e.CardRefreshed? || About(e).None? || About(e).value !in ids {
      var j :| 0 <= j < |events| && events[j] == e;
      assert q.log[|before.log| + j] == e;
      assert EntryOk(e, q);
      if About(e).Some? && About(e).value in ids {
        var i :| 0 <= i < |shown| && IdsOf(shown)[i] == About(e).value;
        FilterMembers(q.cards, Shown(q.now), shown[i]);
        var k :| 0 <= k < |snapshot| && IdsOf(snapshot)[k] == About(e).value;
        FilterMembers(before.cards, Shown(before.now), snapshot[k]);
      }
    }
    ReplayKeepsOrder(snapshot, events, ids);
  }

  lemma {:induction false} GapAnnounces(q: Queue, ops: seq<Op>)
    requires QueueOk(q)
    ensures q.log <= Run(q, ops).log
    ensures forall i | |q.log| <= i < |Run(q, ops).log| && Run(q, ops).log[i].NewCard? ::
              Run(q, ops).log[i].card.id !in q.used
  {
    if ops != [] {
      var before, op := Run(q, ops[..|ops| - 1]), ops[|ops| - 1];
      GapAnnounces(q, ops[..|ops| - 1]);
      RunKeepsOk(q, ops[..|ops| - 1]);
      StepEntries(before, op);
      var log := Step(before, op).log;
      forall i | |q.log| <= i < |log| && log[i].NewCard? ensures log[i].card.id !in q.used {
        if i >= |before.log| {
          assert log[|before.log|..][i - |before.log|] == log[i];
        }
      }
    }
  }

  lemma ShownIds(cards: seq<Card>, id: nat)
    ensures id in IdsOf(cards) <==> exists c :: c in cards && c.id == id
  {
    if id in IdsOf(cards) {
      var i :| 0 <= i < |cards| && IdsOf(cards)[i] == id;
      assert cards[i] in cards;
    } else if exists c :: c in cards && c.id == id {
      var c :| c in cards && c.id == id;
      var i :| 0 <= i < |cards| && cards[i] == c;
      assert IdsOf(cards)[i] == id;
    }
  }

  /** The same shown cards in the same places are the same list. */
  lemma {:induction false} SameList(snapshot: seq<Card>, replayed: seq<Card>, q: Queue, ids: set<nat>)
    requires QueueOk(q) && Distinct(snapshot) && Agrees(replayed, q)
    requires forall id :: id in ids <==> id in IdsOf(Visible(q.cards, q.now))
    requires forall c :: c in Visible(q.cards, q.now) <==> c in snapshot && !IsExpired(c, q.now)
    requires IdsOf(Filter(replayed, Among(ids))) == IdsOf(Filter(snapshot, Among(ids)))
    ensures Filter(snapshot, Unexpired(q.now)) == Visible(q.cards, q.now)
  {
    var shown := Visible(q.cards, q.now);
    AmongIsShown(snapshot, snapshot, shown, q.now, ids);
    SubsetFilter(q.cards, Shown(q.now));
    SubsetFilter(replayed, Unexpired(q.now));
    forall c | c in replayed ensures Among(ids)(c) == Unexpired(q.now)(c) {
      ShownIds(shown, c.id);
      if c.id in ids {
        var x :| x in shown && x.id == c.id;
        DistinctMembers(q.cards, x, c);
      }
    }
    FilterAgrees(replayed, Among(ids), Unexpired(q.now));
    SubsetFilter(snapshot, Unexpired(q.now));
    SameIdsSameCards(Filter(snapshot, Unexpired(q.now)), shown, snapshot);
  }

  lemma {:induction false} AmongIsShown(
    cards: seq<Card>, snapshot: seq<Card>, shown: seq<Card>, now: int, ids: set<nat>)
    requires Distinct(snapshot) && (forall c | c in cards :: c in snapshot)
    requires forall id :: id in ids <==> id in IdsOf(shown)
    requires forall c :: c in shown <==> c in snapshot && !IsExpired(c, now)
    ensures Filter(cards, Among(ids)) == Filter(cards, Unexpired(now))
  {
    forall c | c in cards ensures Among(ids)(c) == Unexpired(now)(c) {
      ShownIds(shown, c.id);
      if c.id in ids {
        var x :| x in shown && x.id == c.id;
        DistinctMembers(snapshot, x, c);
      }
    }
    FilterAgrees(cards, Among(ids), Unexpired(now));
  }

  /** A client subscribed after its snapshot shows exactly `pending()` if and only if nothing it missed in
      between carried a card shown now that it lacks, or removed one that it still shows. */
  lemma {:induction false} ConnectGapIff(first: Queue, ops: seq<Op>, gap: seq<Op>)
    requires QueueOk(first) && first.log == []
    ensures var before := Run(first, ops);
            var q, snapshot := Run(before, gap), Visible(before.cards, before.now);
            && before.log <= q.log
            && (Filter(snapshot, Unexpired(q.now)) == Visible(q.cards, q.now)
                <==> !MissesCard(snapshot, q, |before.log|) && !MissesRemoval(snapshot, q, |before.log|))
  {
    var before := Run(first, ops);
    var q, snapshot := Run(before, gap), Visible(before.cards, before.now);
    RunKeepsOk(first, ops);
    RunKeepsLog(first, ops);
    RunKeepsLogFrom(before, gap, first.used);
    GapAnnounces(before, gap);
    if MissesCard(snapshot, q, |before.log|) {
      var e :| e in q.log[|before.log|..] && Carries(e) && e.card in Visible(q.cards, q.now) && e.card !in snapshot;
      FilterMembers(snapshot, Unexpired(q.now), e.card);
    } else if MissesRemoval(snapshot, q, |before.log|) {
      RemovalShows(snapshot, q, |before.log|);
    } else {
      SnapshotAgrees(before);
      RunAgrees(snapshot, before, gap);
      RunKeepsOk(before, gap);
      PlainGap(q, |before.log|);
      forall c ensures c in Visible(q.cards, q.now) <==> c in snapshot && !IsExpired(c, q.now) {
        SameShown(before, gap, c);
      }
      SameOrder(before, gap);
    }
  }

  lemma PlainGap(q: Queue, from: nat)
    requires from <= |q.log| && LogOk(q)
    ensures Plain(q.log[from..])
  {
    PlainLog(q);
    assert forall e | e in q.log[from..] :: e in q.log;
  }

  /** The same cards shown: also in the same order. */
  lemma {:induction false} SameOrder(before: Queue, gap: seq<Op>)
    requires QueueOk(before) && QueueOk(Run(before, gap)) && LogOk(Run(before, gap))
    requires var q := Run(before, gap);
             && before.log <= q.log && Plain(q.log[|before.log|..])
             && Agrees(ApplyAll(Visible(before.cards, before.now), q.log[|before.log|..]), q)
             && forall c ::
                  c in Visible(q.cards, q.now) <==> c in Visible(before.cards, before.now) && !IsExpired(c, q.now)
    ensures Filter(Visible(before.cards, before.now), Unexpired(Run(before, gap).now))
            == Visible(Run(before, gap).cards, Run(before, gap).now)
  {
    var q, snapshot := Run(before, gap), Visible(before.cards, before.now);
    var shown := Visible(q.cards, q.now);
    var ids := set id | id in IdsOf(shown);
    forall id | id in ids ensures id in IdsOf(snapshot) {
      ShownIds(shown, id);
      ShownIds(snapshot, id);
    }
    GapAnnounces(before, gap);
    GapKeepsOrder(before, gap, ids);
    FilterDistinct(before.cards, Shown(before.now));
    SameList(snapshot, ApplyAll(snapshot, q.log[|before.log|..]), q, ids);
  }

  lemma RemovalShows(snapshot: seq<Card>, q: Queue, from: nat)
    requires from <= |q.log| && LogOk(q) && MissesRemoval(snapshot, q, from)
    ensures Filter(snapshot, Unexpired(q.now)) != Visible(q.cards, q.now)
  {
    var e, c :| e in q.log[from..] && Removes(e) && c in snapshot && About(e) == Some(c.id) && !IsExpired(c, q.now);
    assert e in q.log;
    assert EntryOk(e, q);
    FilterMembers(snapshot, Unexpired(q.now), c);
    FilterMembers(q.cards, Shown(q.now), c);
  }

  /** Any card pushed in the gap is missed. */
  lemma {:induction false} PushInGapIsMissed(before: Queue, id: nat, silo: CardSilo, payload: Payload)
    requires QueueOk(before) && id !in before.used
    ensures var q := Run(before, [Push(id, silo, payload, None)]);
            before.log <= q.log && MissesCard(Visible(before.cards, before.now), q, |before.log|)
  {
    var push, card := Push(id, silo, payload, None), Card(id, silo, payload, Pending, None, before.now);
    assert [push][..0] == [];
    var q := PushStep(before, card);
    assert Run(before, [push]) == q;
    assert q.log[|before.log|..][1] == NewCard(card);
    FilterMembers(before.cards + [card], Shown(q.now), card);
    FilterMembers(before.cards, Shown(before.now), card);
  }
}
