/** The HTTP side of order creation: the idempotency key taken from the header, the status that
    tells a new order from a replay, and the body with a subtotal for every line. Requests arrive
    here authenticated and decoded. */
module Handler {
  import opened Results
  import opened GoInt
  import opened Bags
  import opened Text
  import opened Money
  import opened Orders
  import opened Columns
  import opened Protocol
  import opened Invariant
  import opened Outcomes
  import opened OrderBook
  import opened Guarantees
  import opened Repo

  datatype RequestItem = RequestItem(productId: string, quantity: int64, price: Money)

  datatype ItemResponse = ItemResponse(id: Uuid, product: Uuid, quantity: int64, price: Money, subtotal: Money)

  datatype OrderResponse = OrderResponse(
    id: Uuid, user: Uuid, total: Money, status: Status, key: string,
    version: int, createdAt: int, updatedAt: int, items: seq<ItemResponse>)

  datatype Response = Response(status: nat, body: Option<OrderResponse>)

  const OK := 200
  const CREATED := 201
  const BAD_REQUEST := 400
  const NOT_FOUND := 404
  const INTERNAL := 500

  function LinesOf(items: seq<RequestItem>): seq<Line<string>> {
    Image((i: RequestItem) => Line(i.productId, i.quantity, i.price), items)
  }

  method ToEntityItems(items: seq<RequestItem>) returns (lines: seq<Line<string>>)
    ensures |lines| == |items|
    ensures forall i | 0 <= i < |items| ::
              && lines[i].product == items[i].productId
              && lines[i].quantity == items[i].quantity && lines[i].price == items[i].price
    ensures lines == LinesOf(items)
  {
    lines := [];
    for i := 0 to |items|
      invariant lines == LinesOf(items)[..i]
    {
      lines := lines + [Line(items[i].productId, items[i].quantity, items[i].price)];
    }
  }

  function SubtotalsShown(items: seq<ItemResponse>): seq<Money> {
    Image((i: ItemResponse) => i.subtotal, items)
  }

  /** The body is this order, with a subtotal for every line. */
  ghost predicate Shows(b: OrderResponse, o: StoredOrder) {
    && b.id == o.id && b.user == o.user && b.total == o.total && b.status == o.status && b.key == o.key
    && b.version == o.version && b.createdAt == o.createdAt && b.updatedAt == o.updatedAt
    && |b.items| == |o.lines|
    && (forall i | 0 <= i < |o.lines| ::
          var shown, l := b.items[i], o.lines[i].line;
          && shown.id == o.lines[i].id && shown.product == l.product
          && shown.quantity == l.quantity && shown.price == l.price
          && (shown.subtotal as int - l.price as int * l.quantity as int) % 0x1_0000_0000_0000_0000 == 0)
  }

  /** Product, quantity and price of what is shown, and of what was asked for. */
  function Shown(items: seq<ItemResponse>): seq<(Option<Uuid>, int64, Money)> {
    Image((i: ItemResponse) => (Some(i.product), i.quantity, i.price), items)
  }

  function Asked(cfg: Config, items: seq<RequestItem>): seq<(Option<Uuid>, int64, Money)> {
    Image((i: RequestItem) => (cfg.cast(i.productId), i.quantity, i.price), items)
  }

  /** The body is a new order made of this request: its owner and its key, and its items, one line for
      each, arranged by the ids that the lines were given. The total is their sum in int64. */
  ghost predicate IsReceipt(cfg: Config, user: string, key: string, items: seq<RequestItem>, b: OrderResponse) {
    && cfg.cast(user) == Some(b.user) && b.key == key && b.status == Pending && b.version == 0
    && b.createdAt == b.updatedAt
    && b.total > 0 && (TrueSum(LinesOf(items)) - b.total as int) % 0x1_0000_0000_0000_0000 == 0
    && multiset(Shown(b.items)) == multiset(Asked(cfg, items))
    && (forall i, j | 0 <= i < j < |b.items| :: b.items[i].id < b.items[j].id)
  }

  lemma FulfilledRequest(cfg: Config, user: string, key: string, items: seq<RequestItem>, o: StoredOrder,
                         b: OrderResponse)
    requires NewOrderResult(user, key, LinesOf(items)).Ok?
    requires Fulfils(cfg, NewOrderResult(user, key, LinesOf(items)).value, o)
    requires Shows(b, o) && !IsCut(key)
    ensures IsReceipt(cfg, user, key, items, b)
  {
    hide Wrap, TrueSum, CastLines, Bare;
    var d := NewOrderResult(user, key, LinesOf(items)).value;
    WrapIsUnique(TrueSum(d.lines), d.total);
    assert b.key == key;
    var stored, submitted := FulfilledLines(cfg, d, o);
    assert stored == Shown(b.items);
    assert submitted == Asked(cfg, items);
  }

  /** newOrderResponse: the loaded order with recomputed subtotals. A client that adds them up in
      int64 arrives at what adding up the loaded lines gives. */
  method NewOrderResponse(order: StoredOrder) returns (r: OrderResponse)
    ensures r.id == order.id && r.user == order.user && r.total == order.total && r.status == order.status
    ensures r.key == order.key && r.version == order.version
    ensures r.createdAt == order.createdAt && r.updatedAt == order.updatedAt
    ensures |r.items| == |order.lines|
    ensures forall i | 0 <= i < |order.lines| ::
              var l := order.lines[i];
              r.items[i] == ItemResponse(l.id, l.line.product, l.line.quantity, l.line.price, l.line.Subtotal())
    ensures Shows(r, order)
    ensures AddUp(SubtotalsShown(r.items)) == Wrap(TrueSum(Bare(order.lines)))
  {
    var items: seq<ItemResponse> := [];
    for i := 0 to |order.lines|
      invariant |items| == i
      invariant forall j | 0 <= j < i ::
                  var l := order.lines[j];
                  items[j] == ItemResponse(l.id, l.line.product, l.line.quantity, l.line.price, l.line.Subtotal())
    {
      var l := order.lines[i];
      items := items + [ItemResponse(l.id, l.line.product, l.line.quantity, l.line.price, l.line.Subtotal())];
    }
    r := OrderResponse(order.id, order.user, order.total, order.status, order.key,
                       order.version, order.createdAt, order.updatedAt, items);
    forall i | 0 <= i < |items|
      ensures (items[i].subtotal as int - items[i].price as int * items[i].quantity as int)
              % 0x1_0000_0000_0000_0000 == 0
    {
      WrapIsUnique(items[i].price as int * items[i].quantity as int, items[i].subtotal);
    }
    assert SubtotalsShown(items) == Subtotals(Bare(order.lines));
    AddedSubtotals(Bare(order.lines));
  }

  function StatusOfError(e: Error): nat {
    match e
    case OrderNotFound => NOT_FOUND
    case InvalidOrder => BAD_REQUEST
    case InvalidMoney => BAD_REQUEST
    case Unexpected => INTERNAL
  }

  /** A key without spaces at its end is never stored under another text. */
  lemma TrimmedKeysAreNotCut(header: string)
    ensures !IsCut(TrimSpace(header))
  {
    var key := TrimSpace(header);
    TrimmedEnds(header, IsSpace);
    KeysFitOrChange(key);
    if |key| > KEY_LIMIT { assert key[|key| - 1] != ' '; }
  }

  /** POST /orders, for a call whose validated draft, if there is one, is call `me` of the database.
      201 means that the caller's own order was stored, and shows exactly what the request asked for;
      200 that another request had stored the order of this key. Either way the order is committed, and
      the subtotals that are shown add up to the total that is shown. A missing order is never reported.
      What fits the tables is answered with one of the two unless a statement of this call fails. */
  method Create(db: Database, me: nat, header: string, user: string, items: seq<RequestItem>) returns (r: Response)
    requires var d := NewOrderResult(user, TrimSpace(header), LinesOf(items));
             d.Ok? ==> db.IsAt(me, Op.Create(d.value), Start)
    modifies db
    ensures TrimSpace(header) == "" || NewOrderResult(user, TrimSpace(header), LinesOf(items)).Err? ==>
              r == Response(400, None) && db.state == old(db.state)
    ensures TrimSpace(header) != "" && NewOrderResult(user, TrimSpace(header), LinesOf(items)).Ok? ==>
              && db.Valid() && me < |db.state.clients| && db.state.clients[me].pc.Done?
              && var outcome := db.state.clients[me].pc.outcome;
                 && (r.status == 201 <==> outcome.Created?)
                 && (r.status == 200 <==> outcome.Replayed?)
                 && (outcome.Failed? ==> r == Response(500, None))
                 && (outcome.Created? || outcome.Replayed? || outcome.Failed?)
                 && (!outcome.Failed? ==>
                       && r.body.Some? && Shows(r.body.value, outcome.order)
                       && r.body.value.key == TrimSpace(header)
                       && outcome.order.id in db.state.db.orders
                       && outcome.order == View(db.state.db, outcome.order.id)
                       && (outcome.Created? || DraftsAreValidated(db.state) ==>
                             AddUp(SubtotalsShown(r.body.value.items)) == r.body.value.total))
                 && (outcome.Created? ==> IsReceipt(db.cfg, user, TrimSpace(header), items, r.body.value))
    ensures TrimSpace(header) != "" && NewOrderResult(user, TrimSpace(header), LinesOf(items)).Ok? ==>
              var d := NewOrderResult(user, TrimSpace(header), LinesOf(items)).value;
              FitsTheTables(db.cfg, d) && IsUnharmed(db.log, me) ==> r.status == 201 || r.status == 200
  {
    hide TrimBoth, Run, View, StoredKey, Wrap, TrueSum, AddUp, Subtotals, CastLines, Bare, Shows, IsReceipt,
      FitsTheTables, IsUnharmed, LinesOf;
    var key := TrimSpace(header);
    if key == "" { return Response(BAD_REQUEST, None); }

    var lines := ToEntityItems(items);
    var order := NewOrder(user, key, lines);
    if order.Err? { return Response(StatusOfError(order.error), None); }

    TrimmedKeysAreNotCut(header);
    var outcome := CreateOrder(db, me, order.value);
    if outcome.Failed? { return Response(StatusOfError(outcome.error), None); }

    var status := if outcome.Created? then CREATED else OK;
    var body := NewOrderResponse(outcome.order);
    AddedSubtotals(Bare(outcome.order.lines));
    if outcome.Created? {
      FulfilledTotals(db.cfg, order.value, outcome.order);
      FulfilledRequest(db.cfg, user, key, items, outcome.order, body);
    }
    if DraftsAreValidated(db.state) {
      db.StateIsReachable();
      ReloadedOrdersAddUp(db.cfg, db.state, outcome.order.id);
    }
    return Response(status, Some(body));
  }

  /** GET /orders/{id}: 400 for an id that is no uuid, 404 if there is no such order, and otherwise the
      committed order. A read whose own queries work is never answered with 500. */
  method Get(db: Database, me: nat, id: string, isUuid: bool) returns (r: Response)
    requires isUuid ==> db.IsAt(me, Op.Get(id), Start)
    modifies db
    ensures !isUuid ==> r == Response(400, None) && db.state == old(db.state)
    ensures isUuid ==>
              && db.Valid() && me < |db.state.clients| && db.state.clients[me].pc.Done?
              && match db.state.clients[me].pc.outcome
                 case Found(o) =>
                   && r.status == 200 && r.body.Some? && Shows(r.body.value, o)
                   && db.cfg.cast(id) == Some(o.id) && o.id in db.state.db.orders && o == View(db.state.db, o.id)
                 case Failed(error) =>
                   && r == Response(if error == OrderNotFound then 404 else 500, None)
                   && (db.cfg.cast(id).Some? && IsUnharmed(db.log, me) ==> r.status == 404)
                 case _ => false
  {
    hide Run, View, Shows;
    if !isUuid { return Response(BAD_REQUEST, None); }

    var order := GetByID(db, me, id);
    if order.Err? {
      if order.error == Unexpected && db.cfg.cast(id).Some? && IsUnharmed(db.log, me) {
        FailuresAreExplained(db.cfg, db.start, db.log, db.state, me);
      }
      return Response(StatusOfError(order.error), None);
    }
    var body := NewOrderResponse(order.value);
    return Response(OK, Some(body));
  }

  /** Of all requests whose headers carry the same key up to surrounding spaces, at most one is
      answered with 201, and all that succeed are answered with the same order. */
  lemma OneCreatedPerHeader(cfg: Config, s: State, i: nat, j: nat, headerI: string, headerJ: string)
    requires Reachable(cfg, s) && i < |s.clients| && j < |s.clients|
    requires s.clients[i].op.Create? && s.clients[i].op.draft.key == TrimSpace(headerI) && Succeeded(s.clients[i])
    requires s.clients[j].op.Create? && s.clients[j].op.draft.key == TrimSpace(headerJ) && Succeeded(s.clients[j])
    requires TrimSpace(headerI) == TrimSpace(headerJ)
    ensures AnswerOf(s.clients[i]) == AnswerOf(s.clients[j])
    ensures s.clients[i].pc.outcome.Created? && s.clients[j].pc.outcome.Created? ==> i == j
  {
    SuccessesAgree(cfg, s, i, j);
    if s.clients[i].pc.outcome.Created? && s.clients[j].pc.outcome.Created? { OneWinnerPerKey(cfg, s, i, j); }
  }

  /** Behind the handler, the lookup that follows a conflict always finds the order. */
  lemma HttpReplaysAlwaysFind(cfg: Config, s: State, c: nat, header: string)
    requires Reachable(cfg, s) && c < |s.clients|
    requires s.clients[c].op.Create? && s.clients[c].op.draft.key == TrimSpace(header)
    requires s.clients[c].pc == ReadRow(None)
    ensures ScanResult(VisibleByKey(s.db, s.clients[c].tx, TrimSpace(header))).Ok?
  {
    TrimmedKeysAreNotCut(header);
    ReplayNeverMisses(cfg, s, c);
    InsertedKeysAreStorable(cfg, s, c);
    KeysFitOrChange(TrimSpace(header));
  }
}
