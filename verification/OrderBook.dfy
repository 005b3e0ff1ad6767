/** What the order service promises to be: one map from idempotency keys to orders, on which every
    call acts at a single instant. Transactions, waiting and items in separate rows do not exist
    here. */
module OrderBook {
  import opened Results
  import opened Bags
  import opened GoInt
  import opened Money
  import opened Orders
  import opened Columns
  import opened Protocol

  type Book = map<string, StoredOrder>

  /** A submitted line with its product id read as a uuid. */
  function CastLine(cfg: Config, l: Line<string>): Line<Uuid> {
    Line(if cfg.cast(l.product).Some? then cfg.cast(l.product).value else 0, l.quantity, l.price)
  }

  function CastLines(cfg: Config, lines: seq<Line<string>>): seq<Line<Uuid>> {
    Image(l => CastLine(cfg, l), lines)
  }

  predicate AscendingIds(lines: seq<StoredLine>) {
    forall i, j | 0 <= i < j < |lines| :: lines[i].id < lines[j].id
  }

  /** `o` is the stored form of exactly what `d` submitted: the same owner, total, status and key,
      and the same lines, though arranged by the ids the database drew for them. */
  ghost predicate Fulfils(cfg: Config, d: Draft, o: StoredOrder) {
    && cfg.cast(d.user) == Some(o.user)
    && o.total == d.total && o.status == d.status
    && StoredKey(d.key) == Some(o.key)
    && o.version == 0 && o.createdAt == o.updatedAt
    && (forall i | 0 <= i < |d.lines| :: cfg.cast(d.lines[i].product).Some?)
    && multiset(Bare(o.lines)) == multiset(CastLines(cfg, d.lines))
    && (forall i | 0 <= i < |o.lines| :: o.lines[i].orderId == o.id)
    && AscendingIds(o.lines)
  }

  /** Written out: the loaded lines are the submitted ones, product by product with its quantity and its
      price. */
  lemma FulfilledLines(cfg: Config, d: Draft, o: StoredOrder)
    returns (stored: seq<(Option<Uuid>, int64, Money)>, submitted: seq<(Option<Uuid>, int64, Money)>)
    requires Fulfils(cfg, d, o)
    ensures |stored| == |o.lines| && forall i | 0 <= i < |stored| ::
              stored[i] == (Some(o.lines[i].line.product), o.lines[i].line.quantity, o.lines[i].line.price)
    ensures |submitted| == |d.lines| && forall i | 0 <= i < |submitted| ::
              submitted[i] == (cfg.cast(d.lines[i].product), d.lines[i].quantity, d.lines[i].price)
    ensures multiset(stored) == multiset(submitted)
  {
    var f := (l: Line<Uuid>) => (Some(l.product), l.quantity, l.price);
    ImagesOfArrangements(f, Bare(o.lines), CastLines(cfg, d.lines));
    stored, submitted := Image(f, Bare(o.lines)), Image(f, CastLines(cfg, d.lines));
  }

  /** A new entry: neither its key nor its id was in the book. */
  ghost predicate Adds(b: Book, o: StoredOrder, b': Book) {
    && o.key !in b
    && (forall key | key in b :: b[key].id != o.id)
    && b' == b[o.key := o]
  }

  ghost predicate AddsFor(cfg: Config, b: Book, d: Draft, b': Book) {
    exists o :: Fulfils(cfg, d, o) && Adds(b, o, b')
  }

  /** What can be seen of a step: nothing, the answer of a call, or an order that appears although
      its call has already returned an error. */
  datatype Event =
    | Silent
    | Answered(call: nat, op: Op, outcome: Outcome)
    | Landed(call: nat, op: Op)

  /** The atomic create-or-get map. */
  ghost predicate Legal(cfg: Config, b: Book, e: Event, b': Book) {
    match e
    case Silent => b' == b
    case Landed(_, Create(d)) => AddsFor(cfg, b, d, b')
    case Landed(_, Get(_)) => false
    case Answered(_, Create(d), outcome) => LegalCreate(cfg, b, d, outcome, b')
    case Answered(_, Get(id), outcome) => b' == b && LegalGet(cfg, b, id, outcome)
  }

  ghost predicate LegalCreate(cfg: Config, b: Book, d: Draft, outcome: Outcome, b': Book) {
    match outcome
    case Created(o) => Fulfils(cfg, d, o) && Adds(b, o, b')
    case Replayed(o) => b' == b && StoredKey(d.key) == Some(o.key) && o.key in b && b[o.key] == o
    case Failed(Unexpected) => b' == b || AddsFor(cfg, b, d, b')
    case Failed(OrderNotFound) => b' == b && IsCut(d.key)
    case _ => false
  }

  ghost predicate LegalGet(cfg: Config, b: Book, id: string, outcome: Outcome) {
    match outcome
    case Found(o) => cfg.cast(id) == Some(o.id) && o.key in b && b[o.key] == o
    case Failed(OrderNotFound) => cfg.cast(id).Some? && forall key | key in b :: b[key].id != cfg.cast(id).value
    case Failed(Unexpected) => true
    case _ => false
  }

  /** The events lead the atomic map from book to book. */
  ghost predicate History(cfg: Config, books: seq<Book>, events: seq<Event>) {
    && |books| == |events| + 1
    && forall i | 0 <= i < |events| :: Legal(cfg, books[i], events[i], books[i + 1])
  }

  /** How often a call is answered. */
  function Answers(events: seq<Event>, call: nat): nat {
    if events == [] then 0
    else
      var last := events[|events| - 1];
      Answers(events[..|events| - 1], call) + (if last.Answered? && last.call == call then 1 else 0)
  }

  lemma {:induction false} SomeAnswer(events: seq<Event>, call: nat) returns (i: nat)
    requires Answers(events, call) > 0
    ensures i < |events| && events[i].Answered? && events[i].call == call
  {
    var last := events[|events| - 1];
    if last.Answered? && last.call == call {
      i := |events| - 1;
    } else {
      i := SomeAnswer(events[..|events| - 1], call);
    }
  }

  /** A call acts at most once: no two of its events change the book, and an order that appears after
      the call has returned belongs to a call that was answered with an error before. */
  ghost predicate ActsOnce(books: seq<Book>, events: seq<Event>)
    requires |books| == |events| + 1
  {
    && (forall i, j | 0 <= i < j < |events| && books[i] != books[i + 1] && books[j] != books[j + 1] ::
          !events[i].Silent? && !events[j].Silent? && events[i].call != events[j].call)
    && (forall j | 0 <= j < |events| && events[j].Landed? ::
          exists i :: 0 <= i < j && events[i] == Answered(events[j].call, events[j].op, Failed(Unexpected)))
  }

  // ----- what the atomic map already guarantees

  /** An entry is never changed or taken out. */
  lemma {:induction false} EntriesStay(cfg: Config, books: seq<Book>, events: seq<Event>, i: nat, j: nat)
    requires History(cfg, books, events) && i <= j < |books|
    ensures forall key | key in books[i] :: key in books[j] && books[j][key] == books[i][key]
    decreases j
  {
    hide Fulfils;
    if i < j {
      EntriesStay(cfg, books, events, i, j - 1);
      assert Legal(cfg, books[j - 1], events[j - 1], books[j]);
    }
  }

  /** In a history, created = true is answered at most once per key, and every later success for
      that key is a replay of the very same order. */
  lemma CreatedIsFirstAndUnique(cfg: Config, books: seq<Book>, events: seq<Event>, i: nat, j: nat, o: StoredOrder)
    requires History(cfg, books, events) && i < j < |events|
    requires events[i].Answered? && events[i].op.Create? && events[i].outcome == Created(o)
    requires events[j].Answered? && events[j].op.Create? && !events[j].outcome.Failed?
    requires StoredKey(events[i].op.draft.key) == StoredKey(events[j].op.draft.key)
    ensures events[j].outcome == Replayed(o)
  {
    assert Legal(cfg, books[i], events[i], books[i + 1]);
    assert Legal(cfg, books[j], events[j], books[j + 1]);
    EntriesStay(cfg, books, events, i + 1, j);
  }

  lemma HistoryShape(cfg: Config, books: seq<Book>, events: seq<Event>)
    requires History(cfg, books, events)
    ensures |books| == |events| + 1
    ensures forall i | 0 <= i < |events| && books[i] != books[i + 1] :: !events[i].Silent?
  {
    forall i | 0 <= i < |events| && books[i] != books[i + 1] ensures !events[i].Silent? {
      assert Legal(cfg, books[i], events[i], books[i + 1]);
    }
  }

  /** Different keys lead to orders with different ids. */
  ghost predicate IdsAreDistinct(b: Book) {
    forall k, l | k in b && l in b && b[k].id == b[l].id :: k == l
  }

  lemma {:induction false} IdsStayDistinct(cfg: Config, books: seq<Book>, events: seq<Event>, i: nat)
    requires History(cfg, books, events) && IdsAreDistinct(books[0]) && i < |books|
    ensures IdsAreDistinct(books[i])
  {
    hide Fulfils;
    if i > 0 {
      IdsStayDistinct(cfg, books, events, i - 1);
      assert Legal(cfg, books[i - 1], events[i - 1], books[i]);
    }
  }

  lemma AnswersAreEntries(cfg: Config, b: Book, e: Event, b': Book)
    requires Legal(cfg, b, e, b') && e.Answered? && !e.outcome.Failed?
    ensures e.outcome.order.key in b' && b'[e.outcome.order.key] == e.outcome.order
  {
  }

  /** Whoever has been given an order, as a new one, as a replay or by a read, can read it: from then
      on a read of its id returns this very order, or fails for lack of a database. */
  lemma OrdersCanBeReadBack(cfg: Config, books: seq<Book>, events: seq<Event>, i: nat, j: nat, o: StoredOrder)
    requires History(cfg, books, events) && IdsAreDistinct(books[0]) && i < j < |events|
    requires events[i].Answered? && !events[i].outcome.Failed? && events[i].outcome.order == o
    requires events[j].Answered? && events[j].op.Get? && cfg.cast(events[j].op.id) == Some(o.id)
    ensures events[j].outcome == Found(o) || events[j].outcome == Failed(Unexpected)
  {
    AnswersAreEntries(cfg, books[i], events[i], books[i + 1]);
    EntriesStay(cfg, books, events, i + 1, j);
    IdsStayDistinct(cfg, books, events, j);
    assert o.key in books[j] && books[j][o.key] == o;
    assert Legal(cfg, books[j], events[j], books[j + 1]);
    assert LegalGet(cfg, books[j], events[j].op.id, events[j].outcome);
  }
}
