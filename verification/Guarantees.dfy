/** What callers may rely on in every reachable state. */
module Guarantees {
  import opened Results
  import opened GoInt
  import opened Money
  import opened Orders
  import opened Columns
  import opened Protocol
  import opened Invariant
  import opened Safety
  import opened Progress
  import opened Outcomes
  import opened OrderBook
  import opened Refinement

  /** The order with which a call has succeeded. */
  function AnswerOf(client: Client): StoredOrder
    requires Succeeded(client)
  {
    client.pc.outcome.order
  }

  /** Every committed order is exactly what one single call submitted, with all of its lines and
      nothing else; and every item belongs to a committed order. */
  lemma OrdersAreWhole(cfg: Config, s: State, id: Uuid)
    requires Reachable(cfg, s) && id in s.db.orders
    ensures id in s.db.author && s.db.author[id] < |s.clients|
    ensures var author := s.clients[s.db.author[id]];
            author.op.Create? && Fulfils(cfg, author.op.draft, View(s.db, id))
    ensures forall i | 0 <= i < |s.db.items| :: s.db.items[i].orderId in s.db.orders
  {
    hide Fulfils, ClientOk, LoadedLines;
    ReachableInv(cfg, s);
    assert WrittenByAuthor(cfg, s.db, s.clients, id);
    LoadedOrderFulfils(cfg, s.clients[s.db.author[id]].op.draft, s.db.orders[id], ItemsOf(s.db.items, id));
  }

  /** No call writes two orders, not even one that returned an error. */
  lemma OneOrderPerCall(cfg: Config, s: State, i: Uuid, j: Uuid)
    requires Reachable(cfg, s) && i in s.db.orders && j in s.db.orders
    ensures i in s.db.author && j in s.db.author
    ensures s.db.author[i] == s.db.author[j] <==> i == j
  {
    ReachableInv(cfg, s);
    assert WrittenByAuthor(cfg, s.db, s.clients, i);
    assert WrittenByAuthor(cfg, s.db, s.clients, j);
  }

  /** A successful call was given a committed order, as everybody else loads it. A Create was given
      the order of its own key. */
  lemma AnswersAreCommitted(cfg: Config, s: State, c: nat)
    requires Reachable(cfg, s) && c < |s.clients| && Succeeded(s.clients[c])
    ensures var client, order := s.clients[c], AnswerOf(s.clients[c]);
            && order.id in s.db.orders && order == View(s.db, order.id)
            && (client.op.Create? ==>
                  StoredKey(client.op.draft.key) == Some(order.key)
                  && order.key in s.db.keyIndex && s.db.keyIndex[order.key] == order.id)
  {
    hide CreateOk, View;
    ReachableInv(cfg, s);
    SuccessesFitTheOp(cfg, s, c);
    if s.clients[c].op.Create? {
      if s.clients[c].pc.outcome.Created? { CreatedIsCommitted(cfg, s, c); } else { ReplayedIsCommitted(cfg, s, c); }
    } else {
      FoundIsCommitted(cfg, s, c);
    }
  }

  lemma CreatedIsCommitted(cfg: Config, s: State, c: nat)
    requires Inv(cfg, s) && c < |s.clients| && s.clients[c].op.Create?
    requires s.clients[c].pc.Done? && s.clients[c].pc.outcome.Created?
    ensures var order := s.clients[c].pc.outcome.order;
            && order.id in s.db.orders && order == View(s.db, order.id)
            && StoredKey(s.clients[c].op.draft.key) == Some(order.key)
            && order.key in s.db.keyIndex && s.db.keyIndex[order.key] == order.id
  {
    assert ClientOk(cfg, s.db, c, s.clients[c]);
    assert WrittenByAuthor(cfg, s.db, s.clients, s.clients[c].pc.outcome.order.id);
  }

  lemma ReplayedIsCommitted(cfg: Config, s: State, c: nat)
    requires Inv(cfg, s) && c < |s.clients| && s.clients[c].op.Create?
    requires s.clients[c].pc.Done? && s.clients[c].pc.outcome.Replayed?
    ensures var order := s.clients[c].pc.outcome.order;
            && order.id in s.db.orders && order == View(s.db, order.id)
            && StoredKey(s.clients[c].op.draft.key) == Some(order.key)
            && order.key in s.db.keyIndex && s.db.keyIndex[order.key] == order.id
  {
    var key := s.clients[c].op.draft.key;
    assert ClientOk(cfg, s.db, c, s.clients[c]);
    TakenKey(cfg, s, key);
    KeysFitOrChange(key);
  }

  lemma FoundIsCommitted(cfg: Config, s: State, c: nat)
    requires Inv(cfg, s) && c < |s.clients| && s.clients[c].op.Get?
    requires s.clients[c].pc.Done? && s.clients[c].pc.outcome.Found?
    ensures var order := s.clients[c].pc.outcome.order;
            order.id in s.db.orders && order == View(s.db, order.id)
  {
    assert ClientOk(cfg, s.db, c, s.clients[c]);
  }

  /** All successful Creates for one key are given the same order, whatever they submitted: the same
      id, owner, total and sequence of items. */
  lemma SuccessesAgree(cfg: Config, s: State, i: nat, j: nat)
    requires Reachable(cfg, s) && i < |s.clients| && j < |s.clients|
    requires s.clients[i].op.Create? && Succeeded(s.clients[i])
    requires s.clients[j].op.Create? && Succeeded(s.clients[j])
    requires StoredKey(s.clients[i].op.draft.key) == StoredKey(s.clients[j].op.draft.key)
    ensures AnswerOf(s.clients[i]) == AnswerOf(s.clients[j])
  {
    AnswersAreCommitted(cfg, s, i);
    AnswersAreCommitted(cfg, s, j);
  }

  /** At most one Create per key returns created = true. */
  lemma OneWinnerPerKey(cfg: Config, s: State, i: nat, j: nat)
    requires Reachable(cfg, s) && i < |s.clients| && j < |s.clients|
    requires s.clients[i].op.Create? && s.clients[i].pc.Done? && s.clients[i].pc.outcome.Created?
    requires s.clients[j].op.Create? && s.clients[j].pc.Done? && s.clients[j].pc.outcome.Created?
    requires StoredKey(s.clients[i].op.draft.key) == StoredKey(s.clients[j].op.draft.key)
    ensures i == j
  {
    SuccessesAgree(cfg, s, i, j);
    ReachableInv(cfg, s);
    assert ClientOk(cfg, s.db, i, s.clients[i]) && ClientOk(cfg, s.db, j, s.clients[j]);
  }

  /** created = true comes with the caller's own order; created = false with one that some other
      call submitted under the same stored key. */
  lemma WinnersGetTheirOwnOrder(cfg: Config, s: State, c: nat)
    requires Reachable(cfg, s) && c < |s.clients| && s.clients[c].op.Create? && Succeeded(s.clients[c])
    ensures AnswerOf(s.clients[c]).id in s.db.author
    ensures s.clients[c].pc.outcome.Created? <==> s.db.author[AnswerOf(s.clients[c]).id] == c
    ensures s.clients[c].pc.outcome.Created? ==> Fulfils(cfg, s.clients[c].op.draft, AnswerOf(s.clients[c]))
  {
    AnswersAreCommitted(cfg, s, c);
    OrdersAreWhole(cfg, s, AnswerOf(s.clients[c]).id);
    ReachableInv(cfg, s);
    assert ClientOk(cfg, s.db, c, s.clients[c]);
  }

  // ----- reading

  /** GetByID reads the order row and the items in two separate queries, and still returns one
      committed order complete with what its author submitted. */
  lemma ReadsAreWhole(cfg: Config, s: State, c: nat)
    requires Reachable(cfg, s) && c < |s.clients| && s.clients[c].op.Get? && Succeeded(s.clients[c])
    ensures var order := AnswerOf(s.clients[c]);
            && cfg.cast(s.clients[c].op.id) == Some(order.id)
            && order.id in s.db.orders && order == View(s.db, order.id)
            && order.id in s.db.author && s.db.author[order.id] < |s.clients|
            && s.clients[s.db.author[order.id]].op.Create?
            && Fulfils(cfg, s.clients[s.db.author[order.id]].op.draft, order)
  {
    hide Fulfils, View, MakeOrderRow, MakeItemRow, CreateOk, SortById, ItemsOf, LoadedLines;
    AnswersAreCommitted(cfg, s, c);
    OrdersAreWhole(cfg, s, AnswerOf(s.clients[c]).id);
    ReachableInv(cfg, s);
    assert ClientOk(cfg, s.db, c, s.clients[c]);
  }

  /** Whenever the insert has returned no row, the lookup that follows finds the committed order,
      complete with what its author submitted, exactly if the key fits its column. A key that the
      column cut is looked up in vain. */
  lemma ReplayNeverMisses(cfg: Config, s: State, c: nat)
    requires Reachable(cfg, s) && c < |s.clients|
    requires s.clients[c].op.Create? && s.clients[c].pc == ReadRow(None)
    ensures var key := s.clients[c].op.draft.key;
            var found := ScanResult(VisibleByKey(s.db, s.clients[c].tx, key));
            && (found.Ok? <==> |key| <= 255)
            && (found.Err? ==> found.error == OrderNotFound)
            && (found.Ok? ==>
                  key in s.db.keyIndex && s.db.keyIndex[key] in s.db.orders
                  && found.value == Head(s.db.orders[s.db.keyIndex[key]])
                  && var id := s.db.keyIndex[key];
                     && id in s.db.author && s.db.author[id] < |s.clients|
                     && s.clients[s.db.author[id]].op.Create?
                     && Fulfils(cfg, s.clients[s.db.author[id]].op.draft, View(s.db, id)))
  {
    hide Parse, NumericOut, StoredKey, MakeOrderRow, MakeItemRow, SortById, ItemsOf, LoadedLines, VisibleByKey,
      Fulfils;
    ReachableInv(cfg, s);
    SelectedRow(cfg, s, c);
    KeysFitOrChange(s.clients[c].op.draft.key);
    if |s.clients[c].op.draft.key| <= 255 {
      RowsLoad(s.db.orders[s.db.keyIndex[s.clients[c].op.draft.key]]);
      OrdersAreWhole(cfg, s, s.db.keyIndex[s.clients[c].op.draft.key]);
    }
  }

  /** A call gets as far as a lookup by key only with a key that the column accepts. */
  lemma InsertedKeysAreStorable(cfg: Config, s: State, c: nat)
    requires Reachable(cfg, s) && c < |s.clients|
    requires s.clients[c].op.Create? && s.clients[c].pc == ReadRow(None)
    ensures StoredKey(s.clients[c].op.draft.key).Some?
  {
    hide StoredKey;
    ReachableInv(cfg, s);
    assert ClientOk(cfg, s.db, c, s.clients[c]);
  }

  // ----- time

  lemma StepGrows(cfg: Config, s: State, a: Action)
    requires Inv(cfg, s) && Next(cfg, s, a).Some?
    ensures Grows(s.db, Next(cfg, s, a).value.db)
  {
    hide NextOfCreate, ClientOk, WrittenByAuthor;
    if s.clients[a.c].op.Get? {
      GetsKeepTheDb(cfg, s, a);
    } else {
      CreatesCommitOrKeepTheDb(cfg, s, a);
      if s.clients[a.c].tx.Writes? { CommitGrows(cfg, s, a.c); }
    }
  }

  lemma GetsKeepTheDb(cfg: Config, s: State, a: Action)
    requires a.c < |s.clients| && s.clients[a.c].op.Get? && NextOfGet(cfg, s, a).Some?
    ensures NextOfGet(cfg, s, a).value.db == s.db
  {
  }

  lemma CreatesCommitOrKeepTheDb(cfg: Config, s: State, a: Action)
    requires a.c < |s.clients| && s.clients[a.c].op.Create? && NextOfCreate(cfg, s, a).Some?
    ensures var db' := NextOfCreate(cfg, s, a).value.db;
            db' == s.db || (s.clients[a.c].tx.Writes? && db' == Committed(s.db, a.c, s.clients[a.c].tx))
  {
    hide MakeOrderRow, MakeItemRow, ScanResult, AttachResult, SortById, ItemsOf, InUse, VisibleById, VisibleByKey,
      KeyIsHeld;
  }

  /** A committed order never changes again: whatever runs afterwards, it loads as before. */
  lemma {:induction false} OrdersNeverChange(cfg: Config, s: State, acts: seq<Action>, id: Uuid)
    requires Reachable(cfg, s) && Run(cfg, s, acts).Some? && id in s.db.orders
    ensures var t := Run(cfg, s, acts).value;
            id in t.db.orders && View(t.db, id) == View(s.db, id)
  {
    hide Inv, Next;
    if acts != [] {
      var front := acts[..|acts| - 1];
      OrdersNeverChange(cfg, s, front, id);
      ReachableInv(cfg, s);
      RunKeepsInv(cfg, s, front);
      StepGrows(cfg, Run(cfg, s, front).value, acts[|acts| - 1]);
    }
  }

  // ----- money

  /** Every Create carries a draft that NewOrder let through. */
  predicate DraftsAreValidated(s: State) {
    forall c | 0 <= c < |s.clients| && s.clients[c].op.Create? ::
      var d := s.clients[c].op.draft; NewOrderResult(d.user, d.key, d.lines) == Ok(d)
  }

  lemma {:induction false} CastingKeepsTheSum(cfg: Config, lines: seq<Line<string>>)
    ensures TrueSum(CastLines(cfg, lines)) == TrueSum(lines)
  {
    var cast := CastLines(cfg, lines);
    if lines != [] {
      CastingKeepsTheSum(cfg, lines[..|lines| - 1]);
      assert cast[..|cast| - 1] == CastLines(cfg, lines[..|lines| - 1]);
    }
  }

  lemma FulfilledSum(cfg: Config, d: Draft, o: StoredOrder)
    requires Fulfils(cfg, d, o)
    ensures TrueSum(Bare(o.lines)) == TrueSum(d.lines)
  {
    SumIgnoresOrder(Bare(o.lines), CastLines(cfg, d.lines));
    CastingKeepsTheSum(cfg, d.lines);
  }

  lemma FulfilledTotals(cfg: Config, d: Draft, o: StoredOrder)
    requires Fulfils(cfg, d, o)
    ensures AddUp(Subtotals(Bare(o.lines))) == Wrap(TrueSum(d.lines))
  {
    AddedSubtotals(Bare(o.lines));
    FulfilledSum(cfg, d, o);
  }

  /** For every committed order, adding up the subtotals of the reloaded lines in int64, in the order
      in which the database returns them, gives exactly the stored total. */
  lemma ReloadedOrdersAddUp(cfg: Config, s: State, id: Uuid)
    requires Reachable(cfg, s) && DraftsAreValidated(s) && id in s.db.orders
    ensures AddUp(Subtotals(Bare(View(s.db, id).lines))) == View(s.db, id).total
  {
    hide Subtotals;
    OrdersAreWhole(cfg, s, id);
    FulfilledTotals(cfg, s.clients[s.db.author[id]].op.draft, View(s.db, id));
  }

  /** The stored total is the true price of the stored lines exactly when that price fits in an
      int64. */
  lemma StoredTotalsAreTrueUpTo63Bits(cfg: Config, s: State, id: Uuid)
    requires Reachable(cfg, s) && DraftsAreValidated(s) && id in s.db.orders
    ensures var order := View(s.db, id);
            order.total as int == TrueSum(Bare(order.lines)) <==> TrueSum(Bare(order.lines)) <= MAX_INT64 as int
  {
    OrdersAreWhole(cfg, s, id);
    var d := s.clients[s.db.author[id]].op.draft;
    FulfilledSum(cfg, d, View(s.db, id));
    TotalIsExactUpTo63Bits(d.user, d.key, d.lines);
  }

  /** The columns do not stop an order whose total has wrapped around. */
  lemma AnOverflowingOrderFitsTheColumns(cfg: Config, id: Uuid, now: int)
    requires cfg.cast("u").Some? && cfg.cast("p").Some?
    ensures var d := Draft("u", "k", 4_445_773_976, Pending, [Line("p", 1_844_674_408, 9_999_999_999)]);
            && NewOrderResult(d.user, d.key, d.lines) == Ok(d)
            && MakeOrderRow(cfg, d, id, now).Some? && MakeItemRow(cfg, d.lines[0], id, id).Some?
            && d.total as int < TrueSum(d.lines)
  {
    hide Canonical;
    AnOverflowingOrderIsAccepted();
    AmountsAreStoredExactly(4_445_773_976);
    AmountsAreStoredExactly(9_999_999_999);
  }

  /** A call that has the database to itself succeeds with whatever the tables take, a free line
      included, and its order is stored as it was submitted. */
  lemma AdmittedOrdersGetStored(cfg: Config, d: Draft) returns (t: State)
    requires cfg.poolSize >= 1
    requires cfg.cast(d.user).Some? && 0 < d.total <= 9_999_999_999 && |d.key| <= 255
    requires forall l | l in d.lines ::
               cfg.cast(l.product).Some? && 0 < l.quantity <= 2_147_483_647 && 0 <= l.price <= 9_999_999_999
    ensures Reachable(cfg, t) && |t.clients| == 1 && t.clients[0].op == Create(d) && Succeeded(t.clients[0])
    ensures var id := AnswerOf(t.clients[0]).id;
            id in t.db.orders && Fulfils(cfg, d, View(t.db, id))
  {
    hide IsAdmitted, Run, View, Fulfils;
    var s := State(Db(map[], map[], [], map[]), [Client(Create(d), Start, NoWrites)]);
    assert Reachable(cfg, s) by { assert Init(s) && Run(cfg, s, []) == Some(s) by { RunOfNothing(cfg, s); } }
    assert FitsTheTables(cfg, d);
    EveryCallCanFinish(cfg, s);
    var acts, end :| Run(cfg, s, acts) == Some(end) && SameCalls(s, end) && FittingCallsAreServed(cfg, s, end);
    t := end;
    assert SameCalls(s, t) && FittingCallsAreServed(cfg, s, t);
    assert !HasFailed(s.clients[0]) && s.clients[0].op == Create(d);
    assert Succeeded(t.clients[0]);
    ReachableRun(cfg, s, acts, t);
    AnswersAreCommitted(cfg, t, 0);
    OrdersAreWhole(cfg, t, AnswerOf(t.clients[0]).id);
  }

  lemma RunOfNothing(cfg: Config, s: State)
    ensures Run(cfg, s, []) == Some(s)
  {
  }

  /** An order with a total that has wrapped around is not only accepted: it gets stored. */
  lemma AWrappedTotalIsStored(cfg: Config)
    requires cfg.poolSize >= 1 && cfg.cast("u").Some? && cfg.cast("p").Some?
    ensures exists s, id ::
              && Reachable(cfg, s) && DraftsAreValidated(s) && id in s.db.orders
              && View(s.db, id).total as int < TrueSum(Bare(View(s.db, id).lines))
  {
    hide Reachable, View, Bare, TrueSum, Fulfils, NewOrderResult;
    var d := Draft("u", "k", 4_445_773_976, Pending, [Line("p", 1_844_674_408, 9_999_999_999)]);
    AnOverflowingOrderIsAccepted();
    var t := AdmittedOrdersGetStored(cfg, d);
    StoredTotalOfOne(cfg, t, d, AnswerOf(t.clients[0]).id);
  }

  lemma StoredTotalOfOne(cfg: Config, s: State, d: Draft, id: Uuid)
    requires Reachable(cfg, s) && |s.clients| == 1 && s.clients[0].op == Create(d) && id in s.db.orders
    ensures View(s.db, id).total == d.total && TrueSum(Bare(View(s.db, id).lines)) == TrueSum(d.lines)
  {
    hide Reachable;
    OrdersAreWhole(cfg, s, id);
    FulfilledSum(cfg, d, View(s.db, id));
  }
}
