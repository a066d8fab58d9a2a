/** Approval cards, the queue that holds them, its write-through store and its broadcast log
    (src/cards/model.rs, src/cards/queue.rs, src/store/libsql_backend.rs). */
module Cards {
  import opened Wrappers
  import opened Filtering

  datatype CardStatus = Pending | Approved | Dismissed | Expired | Sent

  datatype CardSilo = Messages | Todos | Calendar

  /** A reply suggestion, or one of the payloads whose text the queue never edits. */
  datatype Payload = Reply(text: string, confidence: real) | Other(kind: string, body: string)

  datatype Card = Card(id: nat, silo: CardSilo, payload: Payload, status: CardStatus, expiresAt: Option<int>,
    updatedAt: int)

  predicate IsExpired(c: Card, now: int) {
    c.expiresAt.Some? && now > c.expiresAt.value
  }

  predicate IsShown(c: Card, now: int) {
    c.status == Pending && !IsExpired(c, now)
  }

  function Shown(now: int): Card -> bool {
    (c: Card) => IsShown(c, now)
  }

  function Unexpired(now: int): Card -> bool {
    (c: Card) => !IsExpired(c, now)
  }

  function NotId(id: nat): Card -> bool {
    (c: Card) => c.id != id
  }

  function IsPending(): Card -> bool {
    (c: Card) => c.status == Pending
  }

  function IsResolved(): Card -> bool {
    (c: Card) => c.status != Pending
  }

  /** What `pending()` returns. */
  function Visible(cards: seq<Card>, now: int): seq<Card> {
    Filter(cards, Shown(now))
  }

  predicate Distinct(cards: seq<Card>) {
    forall i, j | 0 <= i < j < |cards| :: cards[i].id != cards[j].id
  }

  function IndexOf(cards: seq<Card>, id: nat, from: nat := 0): (r: Option<nat>)
    requires from <= |cards|
    ensures r.Some? ==> from <= r.value < |cards| && cards[r.value].id == id && forall k | from <= k < r.value ::
            cards[k].id != id
    ensures r.None? ==> forall k | from <= k < |cards| :: cards[k].id != id
    decreases |cards| - from
  {
    if from == |cards| then None else if cards[from].id == id then Some(from) else IndexOf(cards, id, from + 1)
  }

  // ---------- badge counts ----------

  datatype SiloCounts = SiloCounts(messages: nat, todos: nat, calendar: nat)

  function InSilo(silo: CardSilo): Card -> bool {
    (c: Card) => c.silo == silo
  }

  /** `pending()` grouped by silo. */
  function CountsOf(cards: seq<Card>, now: int): SiloCounts {
    var shown := Visible(cards, now);
    SiloCounts(|Filter(shown, InSilo(Messages))|, |Filter(shown, InSilo(Todos))|, |Filter(shown, InSilo(Calendar))|)
  }

  method FromCards(cards: seq<Card>, now: int) returns (counts: SiloCounts)
    ensures counts == CountsOf(cards, now)
    ensures counts.messages == |Filter(Visible(cards, now), (c: Card) => c.silo == Messages)|
    ensures counts.todos == |Filter(Visible(cards, now), (c: Card) => c.silo == Todos)|
    ensures counts.calendar == |Filter(Visible(cards, now), (c: Card) => c.silo == Calendar)|
    ensures counts.messages + counts.todos + counts.calendar == |Visible(cards, now)|
  {
    counts := SiloCounts(0, 0, 0);
    for i := 0 to |cards|
      invariant counts == CountsOf(cards[..i], now)
      invariant counts.messages + counts.todos + counts.calendar == |Visible(cards[..i], now)|
    {
      var c := cards[i];
      assert cards[..i + 1][..i] == cards[..i];
      CountOneMore(cards[..i], c, now);
      assert cards[..i + 1] == cards[..i] + [c];
      if c.status == Pending && !IsExpired(c, now) {
        match c.silo
        case Messages => counts := counts.(messages := counts.messages + 1);
        case Todos => counts := counts.(todos := counts.todos + 1);
        case Calendar => counts := counts.(calendar := counts.calendar + 1);
      }
    }
    assert cards[..|cards|] == cards;
    FilterAgrees(Visible(cards, now), InSilo(Messages), (c: Card) => c.silo == Messages);
    FilterAgrees(Visible(cards, now), InSilo(Todos), (c: Card) => c.silo == Todos);
    FilterAgrees(Visible(cards, now), InSilo(Calendar), (c: Card) => c.silo == Calendar);
  }

  lemma CountOneMore(cards: seq<Card>, c: Card, now: int)
    ensures Visible(cards + [c], now) == Visible(cards, now) + (if IsShown(c, now) then [c] else [])
    ensures forall silo: CardSilo ::
              |Filter(Visible(cards + [c], now), InSilo(silo))|
              == |Filter(Visible(cards, now), InSilo(silo))| + (if IsShown(c, now) && c.silo == silo then 1 else 0)
  {
    FilterConcat(cards, [c], Shown(now));
    FilterOne(c, Shown(now));
    forall silo: CardSilo
      ensures |Filter(Visible(cards + [c], now), InSilo(silo))|
              == |Filter(Visible(cards, now), InSilo(silo))| + (if IsShown(c, now) && c.silo == silo then 1 else 0)
    {
      FilterConcat(Visible(cards, now), if IsShown(c, now) then [c] else [], InSilo(silo));
      FilterOne(c, InSilo(silo));
    }
  }

  // ---------- the store ----------

  datatype Row = Row(silo: CardSilo, payload: Payload, status: CardStatus, expiresAt: Option<int>)

  type Store = map<nat, Row>

  function SetRowStatus(store: Store, id: nat, status: CardStatus): Store {
    if id in store then store[id := store[id].(status := status)] else store
  }

  /** Only a reply payload has a text to replace; the store does not learn the new confidence. */
  function SetRowReply(store: Store, id: nat, text: string, status: CardStatus): Store {
    if id !in store then store
    else
      var row := store[id];
      store[id := row.(status := status, payload := if row.payload.Reply? then row.payload.(text := text)
        else row.payload)]
  }

  /** The store counts a card as expired from its expiry instant on; in memory it expires just after. */
  predicate RowPast(row: Row, now: int) {
    row.expiresAt.Some? && row.expiresAt.value <= now
  }

  function ExpireRows(store: Store, now: int): Store {
    map id | id in store ::
      if store[id].status == Pending && RowPast(store[id], now) then store[id].(status := Expired) else store[id]
  }

  // ---------- the queue ----------

  datatype WsMessage =
    | NewCard(card: Card)
    | CardUpdate(id: nat, status: CardStatus)
    | CardExpired(id: nat)
    | CardsSync(cards: seq<Card>)
    | CardRefreshed(card: Card)
    | Badge(counts: SiloCounts)
    | Ping

  /** `used` holds every id ever pushed; `log` everything broadcast. */
  datatype Queue = Queue(cards: seq<Card>, store: Store, log: seq<WsMessage>, now: int, used: set<nat>)

  datatype Op =
    | Push(id: nat, silo: CardSilo, payload: Payload, expiresAt: Option<int>)
    | Approve(id: nat)
    | Dismiss(id: nat)
    | Edit(id: nat, text: string)
    | Refine(id: nat, text: string, confidence: real)
    | MarkSent(id: nat)
    | ExpireOld
    | Advance(seconds: nat)

  function WithText(p: Payload, text: string): Payload {
    if p.Reply? then p.(text := text) else p
  }

  function Refined(p: Payload, text: string, confidence: real): Payload {
    if p.Reply? then Payload.Reply(text, confidence) else p
  }

  /** Resolve the card at `i`: new status and payload, broadcast with fresh badge counts. */
  function Resolved(q: Queue, i: nat, status: CardStatus, payload: Payload, store: Store): Queue
    requires i < |q.cards|
  {
    var cards := q.cards[i := q.cards[i].(status := status, payload := payload, updatedAt := q.now)];
    q.(cards := cards, store := store, log := q.log + [CardUpdate(q.cards[i].id, status),
      Badge(CountsOf(cards, q.now))])
  }

  predicate Actionable(q: Queue, id: nat) {
    var i := IndexOf(q.cards, id);
    i.Some? && q.cards[i.value].status == Pending
  }

  function PushStep(q: Queue, card: Card): Queue {
    var cards := q.cards + [card];
    q.(cards := cards, store := q.store[card.id := Row(card.silo, card.payload, card.status, card.expiresAt)],
       log := q.log + [Badge(CountsOf(cards, q.now)), NewCard(card)], used := q.used + {card.id})
  }

  function RefineStep(q: Queue, id: nat, text: string, confidence: real): Queue {
    if !Actionable(q, id) then q
    else
      var i := IndexOf(q.cards, id).value;
      var card := q.cards[i].(payload := Refined(q.cards[i].payload, text, confidence), updatedAt := q.now);
      q.(cards := q.cards[i := card],
         store := SetRowReply(q.store, id, if card.payload.Reply? then card.payload.text else "", Pending),
         log := q.log + [CardRefreshed(card)])
  }

  // ---------- the sweep ----------

  function Swept(c: Card, now: int): Card {
    if c.status == Pending && IsExpired(c, now) then c.(status := Expired, updatedAt := now) else c
  }

  function SweptAll(cards: seq<Card>, now: int): seq<Card> {
    if cards == [] then [] else SweptAll(cards[..|cards| - 1], now) + [Swept(cards[|cards| - 1], now)]
  }

  function IsDue(now: int): Card -> bool {
    (c: Card) => c.status == Pending && IsExpired(c, now)
  }

  function ExpiryEvents(due: seq<Card>): (r: seq<WsMessage>)
    ensures |r| == |due| && forall i | 0 <= i < |r| :: r[i] == CardExpired(due[i].id)
  {
    seq(|due|, i requires 0 <= i < |due| => CardExpired(due[i].id))
  }

  /** Drop the first `n` cards that are no longer pending. */
  function DropResolved(cards: seq<Card>, n: nat): seq<Card> {
    if cards == [] then []
    else if cards[0].status != Pending && n > 0 then DropResolved(cards[1..], n - 1)
    else [cards[0]] + DropResolved(cards[1..], n)
  }

  const PRUNE_ABOVE: nat := 200
  const KEEP_RESOLVED: nat := 100

  /** How many resolved cards are too many. */
  function Surplus(cards: seq<Card>): nat {
    var resolved := |Filter(cards, IsResolved())|;
    if |cards| > PRUNE_ABOVE && resolved > KEEP_RESOLVED then resolved - KEEP_RESOLVED else 0
  }

  function Pruned(cards: seq<Card>): seq<Card> {
    DropResolved(cards, Surplus(cards))
  }

  function ExpireStep(q: Queue): Queue {
    var due := Filter(q.cards, IsDue(q.now));
    var cards := Pruned(SweptAll(q.cards, q.now));
    q.(cards := cards, store := ExpireRows(q.store, q.now),
       log := q.log + ExpiryEvents(due) + (if due == [] then [] else [Badge(CountsOf(cards, q.now))]))
  }

  function Step(q: Queue, op: Op): Queue {
    match op
    case Push(id, silo, payload, expiresAt) =>
      if id in q.used then q else PushStep(q, Card(id, silo, payload, Pending, expiresAt, q.now))
    case Approve(id) =>
      if !Actionable(q, id) then q
      else
        var i := IndexOf(q.cards, id).value;
        Resolved(q, i, Approved, q.cards[i].payload, SetRowStatus(q.store, id, Approved))
    case Dismiss(id) =>
      if !Actionable(q, id) then q
      else
        var i := IndexOf(q.cards, id).value;
        Resolved(q, i, Dismissed, q.cards[i].payload, SetRowStatus(q.store, id, Dismissed))
    case Edit(id, text) =>
      if !Actionable(q, id) then q
      else
        var i := IndexOf(q.cards, id).value;
        Resolved(q, i, Approved, WithText(q.cards[i].payload, text), SetRowReply(q.store, id, text, Approved))
    case Refine(id, text, confidence) => RefineStep(q, id, text, confidence)
    case MarkSent(id) =>
      var i := IndexOf(q.cards, id);
      if i.None? then q
      else Resolved(q, i.value, Sent, q.cards[i.value].payload, SetRowStatus(q.store, id, Sent))
    case ExpireOld => ExpireStep(q)
    case Advance(seconds) => q.(now := q.now + seconds)
  }

  function Run(q: Queue, ops: seq<Op>): Queue {
    if ops == [] then q else Step(Run(q, ops[..|ops| - 1]), ops[|ops| - 1])
  }
}
