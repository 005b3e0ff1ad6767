/** OrderRepo: the statements that one call sends, against a database that other calls use at the
    same time. Every statement is one step of the protocol; between any two of them the other calls
    take as many steps as they like. */
module Repo {
  import opened Results
  import opened GoInt
  import opened Bags
  import opened Money
  import opened Orders
  import opened Columns
  import opened Protocol
  import opened Invariant
  import opened Safety
  import opened Progress
  import opened Outcomes
  import opened OrderBook
  import opened Guarantees

  /** The answer to a query for one row, before it is scanned. */
  datatype RowReply = Row(row: OrderRow) | NoRow | QueryError

  /** The answer to INSERT ... ON CONFLICT DO NOTHING RETURNING id. */
  datatype InsertReply = Returned(id: Uuid) | NothingReturned | InsertError

  /** The parameters of one queued insert of an item. */
  datatype ItemInsert = ItemInsert(orderId: Uuid, product: string, quantity: int64, priceText: string)

  /** The call is over with this error, or only its rollback is missing. */
  predicate FailsWith(pc: Pc, error: Error) {
    pc == Abort(error) || pc == Done(Failed(error))
  }

  /** Where a call stands after scanOrder, in a transaction or on the pool. */
  function AfterScan(before: Client, r: Result<StoredOrder>): Pc {
    match r
    case Ok(head) => if before.op.Get? then GetItems(head)
                     else ReadItems(before.pc.ReadRow? && before.pc.won.Some?, head)
    case Err(e) => if before.op.Get? then Done(Failed(e)) else Abort(e)
  }

  /** Where a call stands after attachItems. */
  function AfterAttach(before: Client, head: StoredOrder, r: Result<seq<StoredLine>>): Pc {
    match r
    case Ok(lines) => if before.op.Get? then Done(Found(head.(lines := lines)))
                      else Commit(before.pc.ReadItems? && before.pc.created, head.(lines := lines))
    case Err(e) => if before.op.Get? then Done(Failed(e)) else Abort(e)
  }

  /** An empty database and the calls that are going to use it. */
  function Fresh(ops: seq<Op>): State {
    State(Db(map[], map[], [], map[]), seq(|ops|, i requires 0 <= i < |ops| => Client(ops[i], Start, NoWrites)))
  }

  class Database {
    const cfg: Config
    ghost const start: State
    ghost var log: seq<Action>
    var state: State

    /** The present state is the result of an interleaving that began with an empty database. */
    ghost predicate Valid()
      reads this
    {
      Init(start) && Run(cfg, start, log) == Some(state)
    }

    constructor (cfg: Config, ops: seq<Op>)
      ensures Valid() && log == [] && this.cfg == cfg
      ensures state == Fresh(ops)
    {
      this.cfg := cfg;
      log := [];
      start := Fresh(ops);
      state := Fresh(ops);
    }

    /** The call `me` is carrying out `op` and stands at `pc`. */
    ghost predicate IsAt(me: nat, op: Op, pc: Pc)
      reads this
    {
      Valid() && me < |state.clients| && state.clients[me].op == op && state.clients[me].pc == pc
    }

    lemma StateIsReachable()
      requires Valid()
      ensures Reachable(cfg, state) && Inv(cfg, state)
    {
      ReachableInv(cfg, state);
    }

    method Perform(a: Action)
      requires Valid() && Next(cfg, state, a).Some?
      modifies this
      ensures Valid() && log == old(log) + [a]
      ensures Some(state) == Next(cfg, old(state), a)
    {
      ghost var extended := log + [a];
      assert extended[..|log|] == log;
      state := Next(cfg, state, a).value;
      log := extended;
    }

    /** Other calls, and the server on behalf of lost ones, take any number of steps. Waiting for a
        connection or for a key is nothing but letting them do so. */
    method Interfere(me: nat)
      requires Valid() && me < |state.clients|
      modifies this
      ensures Valid() && old(log) <= log
      ensures |state.clients| == |old(state.clients)| && state.clients[me] == old(state.clients[me])
    {
      hide Next;
      var steps: int := *;
      while steps > 0
        invariant Valid() && old(log) <= log
        invariant |state.clients| == |old(state.clients)| && state.clients[me] == old(state.clients[me])
      {
        var a: Action := *;
        if a.c != me && Next(cfg, state, a).Some? {
          StepIsLocal(cfg, state, a);
          Perform(a);
        }
        steps := steps - 1;
      }
    }

    /** pool.Begin: fails when no connection has become free by the time the context ends. */
    method Begin(me: nat, ghost op: Op) returns (ok: bool)
      requires op.Create? && IsAt(me, op, Start)
      modifies this
      ensures old(log) <= log
      ensures IsAt(me, op, if ok then Insert else Done(Failed(Unexpected)))
    {
      Interfere(me);
      var broken: bool := *;
      ok := InUse(state.clients) < cfg.poolSize && !broken;
      if ok { Perform(Action.Begin(me)); } else { Perform(BeginFails(me)); }
    }

    /** A statement returns an error; the connection survives it or not. */
    method Break(me: nat, ghost op: Op)
      requires op.Create? && Valid() && me < |state.clients| && state.clients[me].op == op
      requires state.clients[me].pc.Insert? || state.clients[me].pc.Items?
               || state.clients[me].pc.ReadRow? || state.clients[me].pc.ReadItems?
      modifies this
      ensures old(log) <= log
      ensures Valid() && |state.clients| == |old(state.clients)| && state.clients[me].op == op
      ensures FailsWith(state.clients[me].pc, Unexpected)
    {
      hide Run, Total, StepInsertOrder, StepInsertItem, StepSelectRow, StepSelectItems, StepCommit, StepCommitFails;
      var lost: bool := *;
      if lost { Perform(ConnectionLost(me)); } else { Perform(StatementFails(me)); }
    }

    /** tx.QueryRow(insertOrder, ...).Scan(&orderID). Fails when another transaction still holds the
        key by the time the context ends. */
    method InsertOrder(me: nat, ghost op: Op, user: string, totalText: string, status: Status, key: string)
      returns (reply: InsertReply)
      requires op.Create? && IsAt(me, op, Insert)
      requires user == op.draft.user && totalText == Canonical(op.draft.total as int)
      requires status == op.draft.status && key == op.draft.key
      modifies this
      ensures old(log) <= log
      ensures match reply
              case Returned(id) => IsAt(me, op, Items(id, 0))
              case NothingReturned => IsAt(me, op, ReadRow(None))
              case InsertError =>
                && Valid() && me < |state.clients| && state.clients[me].op == op
                && FailsWith(state.clients[me].pc, Unexpected)
    {
      hide DecimalIn, Canonical, StoredKey, Run;
      Interfere(me);
      var id: Uuid := *;
      var now: int := *;
      var broken: bool := *;
      if broken || Next(cfg, state, Action.InsertOrder(me, id, now)).None? {
        Break(me, op);
        return InsertError;
      }
      Perform(Action.InsertOrder(me, id, now));
      match state.clients[me].pc {
        case Items(given, _) => reply := Returned(given);
        case ReadRow(_) => reply := NothingReturned;
        case _ => reply := InsertError;
      }
    }

    /** results.Exec() for the next insert of the batch. */
    method ExecItem(me: nat, ghost op: Op, ghost k: nat, insert: ItemInsert) returns (ok: bool)
      requires op.Create? && k < |op.draft.lines| && IsAt(me, op, Items(insert.orderId, k))
      requires insert.product == op.draft.lines[k].product && insert.quantity == op.draft.lines[k].quantity
      requires insert.priceText == Canonical(op.draft.lines[k].price as int)
      modifies this
      ensures old(log) <= log
      ensures ok ==> IsAt(me, op, Items(insert.orderId, k + 1))
      ensures !ok ==> && Valid() && me < |state.clients| && state.clients[me].op == op
                      && FailsWith(state.clients[me].pc, Unexpected)
    {
      hide Run;
      Interfere(me);
      var id: Uuid := *;
      if Next(cfg, state, Action.InsertItem(me, id)).None? {
        Break(me, op);
        return false;
      }
      Perform(Action.InsertItem(me, id));
      return state.clients[me].pc.Items?;
    }

    /** results.Close(). */
    method CloseBatch(me: nat, ghost op: Op, orderId: Uuid) returns (ok: bool)
      requires op.Create? && IsAt(me, op, Items(orderId, |op.draft.lines|))
      modifies this
      ensures old(log) <= log
      ensures ok ==> IsAt(me, op, ReadRow(Some(orderId)))
      ensures !ok ==> && Valid() && me < |state.clients| && state.clients[me].op == op
                      && FailsWith(state.clients[me].pc, Unexpected)
    {
      Interfere(me);
      ok := *;
      if ok { Perform(Action.CloseBatch(me)); } else { Break(me, op); }
    }

    /** q.QueryRow(...), where `q` is the call's transaction or, for GetByID, the pool. */
    method QueryOrder(me: nat, ghost op: Op, byKey: bool, id: string, orderId: Uuid) returns (reply: RowReply)
      requires Valid() && me < |state.clients| && state.clients[me].op == op
      requires op.Create? && byKey ==> state.clients[me].pc == ReadRow(None) && id == op.draft.key
      requires op.Create? && !byKey ==> state.clients[me].pc == ReadRow(Some(orderId))
      requires op.Get? ==> !byKey && state.clients[me].pc == Start && id == op.id
      modifies this
      ensures old(log) <= log
      ensures Valid() && me < |state.clients| && state.clients[me].op == op
      ensures reply.Row? ==> state.clients[me].pc == AfterScan(old(state.clients[me]), ScanResult(Some(reply.row)))
      ensures reply.NoRow? ==> state.clients[me].pc == AfterScan(old(state.clients[me]), ScanResult(None))
      ensures reply.QueryError? ==> FailsWith(state.clients[me].pc, Unexpected)
    {
      hide Parse, NumericOut, Run, Total;
      Interfere(me);
      var broken: bool := *;
      if state.clients[me].op.Get? {
        var busy := InUse(state.clients) >= cfg.poolSize;
        if broken || busy || cfg.cast(id).None? {
          Perform(PoolSelectFails(me));
          return QueryError;
        }
        var row := VisibleById(state.db, NoWrites, cfg.cast(id).value);
        Perform(PoolSelectRow(me));
        reply := if row.Some? then Row(row.value) else NoRow;
      } else {
        if broken {
          Break(me, op);
          return QueryError;
        }
        var tx := state.clients[me].tx;
        var row := if byKey then VisibleByKey(state.db, tx, id) else VisibleById(state.db, tx, orderId);
        Perform(SelectRow(me));
        reply := if row.Some? then Row(row.value) else NoRow;
      }
    }

    /** q.Query(selectOrderItems, order.ID), all rows of it. */
    method QueryItems(me: nat, ghost op: Op, head: StoredOrder) returns (rows: Option<seq<ItemRow>>)
      requires Valid() && me < |state.clients| && state.clients[me].op == op
      requires op.Create? ==> state.clients[me].pc.ReadItems? && state.clients[me].pc.head == head
      requires op.Get? ==> state.clients[me].pc == GetItems(head)
      modifies this
      ensures old(log) <= log
      ensures Valid() && me < |state.clients| && state.clients[me].op == op
      ensures rows.Some? ==> state.clients[me].pc == AfterAttach(old(state.clients[me]), head, AttachResult(rows.value))
      ensures rows.None? ==> FailsWith(state.clients[me].pc, Unexpected)
    {
      hide AttachResult, Run, Total, SortById, ItemsOf;
      Interfere(me);
      var broken: bool := *;
      if state.clients[me].op.Get? {
        if broken || InUse(state.clients) >= cfg.poolSize {
          Perform(PoolSelectFails(me));
          return None;
        }
        rows := Some(VisibleItems(state.db, NoWrites, head.id));
        Perform(PoolSelectItems(me));
      } else {
        if broken {
          Break(me, op);
          return None;
        }
        rows := Some(VisibleItems(state.db, state.clients[me].tx, head.id));
        Perform(SelectItems(me));
      }
    }

    /** tx.Commit. An error says nothing about whether the commit took effect. */
    method Commit(me: nat, ghost op: Op) returns (ok: bool)
      requires op.Create? && Valid() && me < |state.clients|
      requires state.clients[me].op == op && state.clients[me].pc.Commit?
      modifies this
      ensures old(log) <= log
      ensures var pc := old(state.clients[me].pc);
              IsAt(me, op, Done(if !ok then Failed(Unexpected)
                                else if pc.created then Created(pc.order) else Replayed(pc.order)))
    {
      hide Run, Total;
      Interfere(me);
      ok := *;
      var how: CommitLoss := *;
      if ok { Perform(CommitSucceeds(me)); } else { Perform(CommitFails(me, how)); }
    }

    /** The deferred tx.Rollback: a no-op once the transaction is closed. */
    method Rollback(me: nat, ghost op: Op)
      requires op.Create? && Valid() && me < |state.clients| && state.clients[me].op == op
      requires state.clients[me].pc.Abort? || state.clients[me].pc.Done?
      modifies this
      ensures old(log) <= log
      ensures IsAt(me, op, if old(state.clients[me].pc).Abort? then Done(Failed(old(state.clients[me].pc).error))
                           else old(state.clients[me].pc))
    {
      hide Run;
      Interfere(me);
      if state.clients[me].pc.Abort? {
        var lost: bool := *;
        if lost { Perform(ConnectionLost(me)); } else { Perform(Action.Rollback(me)); }
      }
    }
  }

  /** scanOrder. */
  method ScanOrder(reply: RowReply) returns (r: Result<StoredOrder>)
    ensures reply.Row? ==> r == ScanResult(Some(reply.row))
    ensures reply.NoRow? ==> r == ScanResult(None)
    ensures reply.QueryError? ==> r == Err(Unexpected)
  {
    match reply
    case NoRow => return Err(OrderNotFound);
    case QueryError => return Err(Unexpected);
    case Row(row) =>
      var order := Head(row);
      var total := ParseMoney(NumericOut(row.total));
      if total.Err? { return Err(total.error); }
      order := order.(total := total.value);
      return Ok(order);
  }

  /** The loop of attachItems over the rows of the query. */
  method CollectItems(rows: seq<ItemRow>) returns (r: Result<seq<StoredLine>>)
    ensures r == AttachResult(rows)
  {
    var items: seq<StoredLine> := [];
    for i := 0 to |rows|
      invariant AttachResult(rows[..i]) == Ok(items)
    {
      assert rows[..i + 1][..i] == rows[..i];
      var row := rows[i];
      var price := ParseMoney(NumericOut(row.price));
      if price.Err? {
        AttachStopsAt(rows, i + 1);
        return Err(price.error);
      }
      items := items + [StoredLine(row.id, row.orderId, Line(row.product, row.quantity as int64, price.value))];
    }
    assert rows[..|rows|] == rows;
    return Ok(items);
  }

  lemma {:induction false} AttachStopsAt(rows: seq<ItemRow>, i: nat)
    requires i <= |rows| && AttachResult(rows[..i]).Err?
    ensures AttachResult(rows) == AttachResult(rows[..i])
    decreases |rows|
  {
    if i == |rows| {
      assert rows[..i] == rows;
    } else {
      var front := rows[..|rows| - 1];
      assert front[..i] == rows[..i];
      AttachStopsAt(front, i);
    }
  }

  /** loadOrderByID and loadOrderByKey: the row, then the items. */
  method LoadOrder(db: Database, me: nat, ghost op: Op, byKey: bool, id: string, orderId: Uuid)
    returns (r: Result<StoredOrder>)
    requires db.Valid() && me < |db.state.clients| && db.state.clients[me].op == op
    requires op.Create? && byKey ==> db.state.clients[me].pc == ReadRow(None) && id == op.draft.key
    requires op.Create? && !byKey ==> db.state.clients[me].pc == ReadRow(Some(orderId))
    requires op.Get? ==> !byKey && db.state.clients[me].pc == Start && id == op.id
    modifies db
    ensures old(db.log) <= db.log
    ensures db.Valid() && me < |db.state.clients| && db.state.clients[me].op == op
    ensures r.Ok? && op.Create? ==> db.state.clients[me].pc == Pc.Commit(!byKey, r.value)
    ensures r.Ok? && op.Get? ==> db.state.clients[me].pc == Done(Found(r.value))
    ensures r.Err? ==> FailsWith(db.state.clients[me].pc, r.error)
  {
    hide ScanResult, AttachResult, Run;
    var reply := db.QueryOrder(me, op, byKey, id, orderId);
    var head := ScanOrder(reply);
    if head.Err? { return Err(head.error); }

    var rows := db.QueryItems(me, op, head.value);
    if rows.None? { return Err(Unexpected); }
    var items := CollectItems(rows.value);
    if items.Err? { return Err(items.error); }
    return Ok(head.value.(lines := items.value));
  }

  /** insertItems: queue one insert per line, then drain the batch. */
  method InsertItems(db: Database, me: nat, ghost op: Op, orderId: Uuid, items: seq<Line<string>>) returns (ok: bool)
    requires op.Create? && items == op.draft.lines && db.IsAt(me, op, Items(orderId, 0))
    modifies db
    ensures old(db.log) <= db.log
    ensures ok ==> db.IsAt(me, op, ReadRow(Some(orderId)))
    ensures !ok ==> && db.Valid() && me < |db.state.clients| && db.state.clients[me].op == op
                    && FailsWith(db.state.clients[me].pc, Unexpected)
  {
    hide Canonical, Run;
    var batch: seq<ItemInsert> := [];
    for i := 0 to |items|
      modifies {}
      invariant |batch| == i
      invariant forall j | 0 <= j < i ::
                  batch[j] == ItemInsert(orderId, items[j].product, items[j].quantity, Canonical(items[j].price as int))
    {
      var priceText := String(items[i].price);
      batch := batch + [ItemInsert(orderId, items[i].product, items[i].quantity, priceText)];
    }

    for i := 0 to |items|
      invariant db.IsAt(me, op, Items(orderId, i)) && old(db.log) <= db.log
    {
      var done := db.ExecItem(me, op, i, batch[i]);
      if !done { return false; }
    }

    ok := db.CloseBatch(me, op, orderId);
  }

  /** The body of OrderRepo.Create between Begin and the deferred rollback. */
  method CreateInTransaction(db: Database, me: nat, order: Draft) returns (r: Outcome)
    requires db.IsAt(me, Create(order), Insert)
    modifies db
    ensures old(db.log) <= db.log
    ensures db.Valid() && me < |db.state.clients| && db.state.clients[me].op == Create(order)
    ensures db.state.clients[me].pc == Done(r) || (r.Failed? && db.state.clients[me].pc == Abort(r.error))
  {
    hide Canonical, Run;
    ghost var op := Create(order);
    var totalText := String(order.total);
    var reply := db.InsertOrder(me, op, order.user, totalText, order.status, order.key);

    match reply
    case NothingReturned =>
      var existing := LoadOrder(db, me, op, true, order.key, 0);
      if existing.Err? { return Failed(existing.error); }
      var committed := db.Commit(me, op);
      if !committed { return Failed(Unexpected); }
      return Replayed(existing.value);

    case InsertError =>
      return Failed(Unexpected);

    case Returned(orderId) =>
      var inserted := InsertItems(db, me, op, orderId, order.lines);
      if !inserted { return Failed(Unexpected); }
      var stored := LoadOrder(db, me, op, false, "", orderId);
      if stored.Err? { return Failed(stored.error); }
      var committed := db.Commit(me, op);
      if !committed { return Failed(Unexpected); }
      return Created(stored.value);
  }

  /** OrderRepo.Create, whatever the other calls do meanwhile. A fresh order is returned exactly as
      it was submitted and is committed; a replay is the committed order of that key; an order is
      reported missing only for a key that its column has cut. With a draft that fits the tables, the call
      succeeds unless one of its own statements fails. */
  method CreateOrder(db: Database, me: nat, order: Draft) returns (r: Outcome)
    requires db.IsAt(me, Create(order), Start)
    modifies db
    ensures old(db.log) <= db.log
    ensures db.IsAt(me, Create(order), Done(r))
    ensures r.Created? || r.Replayed? || r == Failed(Unexpected)
            || (r == Failed(OrderNotFound) && IsCut(order.key))
    ensures FitsTheTables(db.cfg, order) && IsUnharmed(db.log, me) ==> r.Created? || r.Replayed?
    ensures r.Created? ==> Fulfils(db.cfg, order, r.order)
    ensures !r.Failed? ==>
              && StoredKey(order.key) == Some(r.order.key)
              && r.order.id in db.state.db.orders && r.order == View(db.state.db, r.order.id)
              && r.order.key in db.state.db.keyIndex && db.state.db.keyIndex[r.order.key] == r.order.id
  {
    hide Run;
    var begun := db.Begin(me, Create(order));
    if begun {
      r := CreateInTransaction(db, me, order);
      db.Rollback(me, Create(order));
    } else {
      r := Failed(Unexpected);
    }
    db.StateIsReachable();
    CreateAnswer(db.cfg, db.state, me, r);
    if r.Failed? && FitsTheTables(db.cfg, order) && IsUnharmed(db.log, me) {
      UnharmedCallsSucceed(db.cfg, db.start, db.log, db.state, me);
    }
  }

  lemma CreateAnswer(cfg: Config, s: State, c: nat, r: Outcome)
    requires Reachable(cfg, s) && c < |s.clients| && s.clients[c].op.Create? && s.clients[c].pc == Done(r)
    ensures var d := s.clients[c].op.draft;
            && (r.Created? || r.Replayed? || r == Failed(Unexpected)
                || (r == Failed(OrderNotFound) && IsCut(d.key)))
            && (r.Created? ==> Fulfils(cfg, d, r.order))
            && (!r.Failed? ==>
                  && StoredKey(d.key) == Some(r.order.key)
                  && r.order.id in s.db.orders && r.order == View(s.db, r.order.id)
                  && r.order.key in s.db.keyIndex && s.db.keyIndex[r.order.key] == r.order.id)
  {
    hide Fulfils;
    ReachableInv(cfg, s);
    if r.Failed? {
      KnownErrors(cfg, s, c);
    } else {
      SuccessesFitTheOp(cfg, s, c);
      AnswersAreCommitted(cfg, s, c);
      WinnersGetTheirOwnOrder(cfg, s, c);
    }
  }

  /** OrderRepo.GetByID, whatever the other calls do meanwhile: a committed order, complete with
      what its author submitted. */
  method GetByID(db: Database, me: nat, id: string) returns (r: Result<StoredOrder>)
    requires db.IsAt(me, Get(id), Start)
    modifies db
    ensures old(db.log) <= db.log
    ensures db.IsAt(me, Get(id), Done(match r case Ok(o) => Found(o) case Err(e) => Failed(e)))
    ensures r.Err? ==> r.error == Unexpected || r.error == OrderNotFound
    ensures r.Ok? ==>
              && db.cfg.cast(id) == Some(r.value.id)
              && r.value.id in db.state.db.orders && r.value == View(db.state.db, r.value.id)
              && exists d :: Fulfils(db.cfg, d, r.value)
  {
    hide Fulfils, View, Run;
    r := LoadOrder(db, me, Get(id), false, id, 0);
    db.StateIsReachable();
    assert ClientOk(db.cfg, db.state.db, me, db.state.clients[me]);
    if r.Ok? { ReadsAreWhole(db.cfg, db.state, me); }
  }
}
