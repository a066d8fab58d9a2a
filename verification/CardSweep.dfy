/** What the expiry sweep keeps and what it prunes (src/cards/queue.rs). */
module CardSweep {
  import opened Sequences
  import opened Filtering
  import opened Cards
  import opened CardReplay

  lemma {:induction false} PendingOrResolved(cards: seq<Card>)
    ensures |Filter(cards, IsPending())| + |Filter(cards, IsResolved())| == |cards|
  {
    if cards != [] {
      PendingOrResolved(cards[..|cards| - 1]);
    }
  }

  lemma FilterCons(c: Card, cards: seq<Card>, p: Card -> bool)
    ensures Filter([c] + cards, p) == (if p(c) then [c] else []) + Filter(cards, p)
  {
    FilterConcat([c], cards, p);
    FilterOne(c, p);
  }

  /** Dropping the first `n` resolved cards: up to a cut only the pending ones stay, after it everything does. */
  lemma {:induction false} DropCuts(cards: seq<Card>, n: nat) returns (cut: nat)
    requires n <= |Filter(cards, IsResolved())|
    ensures cut <= |cards|
    ensures |Filter(cards[..cut], IsResolved())| == n
    ensures DropResolved(cards, n) == Filter(cards[..cut], IsPending()) + cards[cut..]
  {
    if n == 0 {
      cut := 0;
      DropNone(cards);
    } else {
      var c, rest := cards[0], cards[1..];
      assert cards == [c] + rest;
      FilterCons(c, rest, IsResolved());
      var m := if c.status != Pending then n - 1 else n;
      var k := DropCuts(rest, m);
      cut := k + 1;
      CutMoves(c, rest, k);
      FilterCons(c, rest[..k], IsResolved());
      assert DropResolved(cards, n) == (if c.status == Pending then [c] else []) + DropResolved(rest, m);
    }
  }

  lemma CutMoves(c: Card, rest: seq<Card>, k: nat)
    requires k <= |rest|
    ensures ([c] + rest)[..k + 1] == [c] + rest[..k]
    ensures Filter(([c] + rest)[..k + 1], IsPending()) + ([c] + rest)[k + 1..]
            == (if c.status == Pending then [c] else []) + (Filter(rest[..k], IsPending()) + rest[k..])
  {
    assert ([c] + rest)[..k + 1] == [c] + rest[..k];
    assert ([c] + rest)[k + 1..] == rest[k..];
    FilterCons(c, rest[..k], IsPending());
  }

  lemma FilterTwice(cards: seq<Card>, p: Card -> bool, q: Card -> bool)
    requires forall c | c in cards && p(c) :: !q(c)
    ensures Filter(Filter(cards, p), q) == []
  {
    SubsetFilter(cards, p);
    FilterNone(Filter(cards, p), q);
  }

  lemma DropKeeps(cards: seq<Card>, n: nat)
    requires n <= |Filter(cards, IsResolved())|
    ensures Filter(DropResolved(cards, n), IsPending()) == Filter(cards, IsPending())
    ensures Filter(DropResolved(cards, n), IsResolved()) == Filter(cards, IsResolved())[n..]
  {
    var cut := DropCuts(cards, n);
    var front, back := cards[..cut], cards[cut..];
    var kept := Filter(front, IsPending());
    assert cards == front + back;
    FilterConcat(front, back, IsPending());
    FilterConcat(kept, back, IsPending());
    FilterBoth(front, IsPending(), IsPending(), IsPending());
    FilterConcat(front, back, IsResolved());
    FilterConcat(kept, back, IsResolved());
    FilterTwice(front, IsPending(), IsResolved());
  }

  lemma {:induction false} SweptPending(cards: seq<Card>, now: int)
    ensures Filter(SweptAll(cards, now), IsPending()) == Visible(cards, now)
  {
    if cards != [] {
      SweptPending(cards[..|cards| - 1], now);
    }
  }

  lemma {:induction false} PrunedKeeps(cards: seq<Card>)
    ensures Filter(Pruned(cards), IsPending()) == Filter(cards, IsPending())
    ensures |cards| <= 200 ==> Pruned(cards) == cards
    ensures |cards| > 200 ==>
              Filter(Pruned(cards), IsResolved()) == LastN(Filter(cards, IsResolved()), 100)
  {
    DropKeeps(cards, Surplus(cards));
    DropNone(cards);
  }

  /** The sweep keeps every pending card and, when it prunes, exactly the newest resolved ones; the
      queue stays small. */
  lemma SweepKeeps(cards: seq<Card>, now: int)
    ensures var swept, after := SweptAll(cards, now), Pruned(SweptAll(cards, now));
            && Filter(after, IsPending()) == Visible(cards, now)
            && (|cards| <= 200 ==> after == swept)
            && (|cards| > 200 ==>
                  Filter(after, IsResolved()) == LastN(Filter(swept, IsResolved()), 100))
            && (|after| <= 200 || |after| <= |Visible(cards, now)| + 100)
  {
    SweptAt(cards, now);
    SweptPending(cards, now);
    PrunedKeeps(SweptAll(cards, now));
    PendingOrResolved(Pruned(SweptAll(cards, now)));
  }

  /** Survivors keep their order: the result is the swept queue with resolved cards removed before some
      position and nothing removed after it. */
  lemma SweepKeepsOrder(cards: seq<Card>, now: int) returns (cut: nat)
    ensures var swept := SweptAll(cards, now);
            && |swept| == |cards| && cut <= |swept|
            && Pruned(swept) == Filter(swept[..cut], IsPending()) + swept[cut..]
  {
    SweptAt(cards, now);
    cut := DropCuts(SweptAll(cards, now), Surplus(SweptAll(cards, now)));
  }
}
