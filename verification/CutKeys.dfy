/** A run in which a replay misses: a key longer than its column, with spaces at the end, is stored
    under a shorter text than the one it is looked up by. */
module CutKeys {
  import opened Results
  import opened Bags
  import opened Money
  import opened Orders
  import opened Columns
  import opened Protocol
  import opened Safety

  lemma InUseOfTwo(a: Client, b: Client)
    ensures InUse([a, b]) == Connections(a) + Connections(b)
  {
    assert [a, b][..1] == [a] && [a][..0] == [];
    assert Total([a], Connections) == Connections(a);
  }

  function At(db: Db, a: Client, b: Client): State { State(db, [a, b]) }

  lemma FirstMoves(cfg: Config, db: Db, a: Client, b: Client, act: Action, db': Db, x: Client)
    requires Reachable(cfg, At(db, a, b))
    requires Next(cfg, At(db, a, b), act) == Some(State(db', [a, b][0 := x]))
    ensures Reachable(cfg, At(db', x, b))
  {
    assert [a, b][0 := x] == [x, b];
    ReachableStep(cfg, At(db, a, b), act, At(db', x, b));
  }

  lemma SecondMoves(cfg: Config, db: Db, a: Client, b: Client, act: Action, x: Client)
    requires Reachable(cfg, At(db, a, b))
    requires Next(cfg, At(db, a, b), act) == Some(State(db, [a, b][1 := x]))
    ensures Reachable(cfg, At(db, a, x))
  {
    assert [a, b][1 := x] == [a, x];
    ReachableStep(cfg, At(db, a, b), act, At(db, a, x));
  }

  /** A draft with one line that every table accepts, under a key that the column cuts. */
  predicate IsCutButStorable(cfg: Config, d: Draft) {
    && MakeOrderRow(cfg, d, 0, 0).Some?
    && |d.lines| == 1 && MakeItemRow(cfg, d.lines[0], 0, 0).Some?
    && |d.key| > 255
  }

  const EMPTY := Db(map[], map[], [], map[])

  lemma FirstCallWrites(cfg: Config, d: Draft) returns (c3: Client)
    requires cfg.poolSize >= 1 && IsCutButStorable(cfg, d)
    ensures var row, item := MakeOrderRow(cfg, d, 0, 0).value, MakeItemRow(cfg, d.lines[0], 0, 0).value;
            c3 == Client(Create(d), Items(0, 1), Writes(row, [item], Driven))
    ensures Reachable(cfg, At(EMPTY, c3, Client(Create(d), Start, NoWrites)))
  {
    hide StoredKey, MakeOrderRow, MakeItemRow, Init, Run, Total, Reachable;
    var row, item := MakeOrderRow(cfg, d, 0, 0).value, MakeItemRow(cfg, d.lines[0], 0, 0).value;
    var second := Client(Create(d), Start, NoWrites);
    var c0 := Client(Create(d), Start, NoWrites);
    StartIsReachable(cfg, d);
    InUseOfTwo(c0, second);
    var c1 := c0.(pc := Insert);
    FirstMoves(cfg, EMPTY, c0, second, Begin(0), EMPTY, c1);
    var c2 := Client(Create(d), Items(0, 0), Writes(row, [], Driven));
    FirstMoves(cfg, EMPTY, c1, second, InsertOrder(0, 0, 0), EMPTY, c2);
    c3 := Client(Create(d), Items(0, 1), Writes(row, [item], Driven));
    assert [] + [item] == [item];
    FirstMoves(cfg, EMPTY, c2, second, InsertItem(0, 0), EMPTY, c3);
  }

  /** The first call stores the order ... */
  lemma FirstCallStores(cfg: Config, d: Draft) returns (db: Db, order: StoredOrder)
    requires cfg.poolSize >= 1 && IsCutButStorable(cfg, d)
    ensures StoredKey(d.key).Some? && StoredKey(d.key).value in db.keyIndex && d.key !in db.keyIndex
    ensures var first := Client(Create(d), Done(Created(order)), NoWrites);
            Reachable(cfg, At(db, first, Client(Create(d), Start, NoWrites)))
  {
    hide LoadedLines, AttachResult, ScanResult, MakeOrderRow, MakeItemRow, Run, Reachable;
    var c3 := FirstCallWrites(cfg, d);
    RowIds(cfg, d);
    var second := Client(Create(d), Start, NoWrites);
    var c4 := c3.(pc := ReadRow(Some(0)));
    FirstMoves(cfg, EMPTY, c3, second, CloseBatch(0), EMPTY, c4);
    RowsLoad(c3.tx.row);
    var c5 := c3.(pc := ReadItems(true, Head(c3.tx.row)));
    FirstMoves(cfg, EMPTY, c4, second, SelectRow(0), EMPTY, c5);
    var rows := VisibleItems(EMPTY, c5.tx, 0);
    LinesLoad(rows);
    order := Head(c3.tx.row).(lines := LoadedLines(rows));
    var c6 := c3.(pc := Commit(true, order));
    FirstMoves(cfg, EMPTY, c5, second, SelectItems(0), EMPTY, c6);
    db := Committed(EMPTY, 0, c6.tx);
    FirstMoves(cfg, EMPTY, c6, second, CommitSucceeds(0), db, Client(Create(d), Done(Created(order)), NoWrites));
  }

  lemma StartIsReachable(cfg: Config, d: Draft)
    ensures var c0 := Client(Create(d), Start, NoWrites); Reachable(cfg, At(EMPTY, c0, c0))
  {
    var c0 := Client(Create(d), Start, NoWrites);
    assert Init(At(EMPTY, c0, c0)) && Run(cfg, At(EMPTY, c0, c0), []) == Some(At(EMPTY, c0, c0));
  }

  lemma RowIds(cfg: Config, d: Draft)
    requires IsCutButStorable(cfg, d)
    ensures MakeOrderRow(cfg, d, 0, 0).value.id == 0
    ensures StoredKey(d.key) == Some(MakeOrderRow(cfg, d, 0, 0).value.key)
    ensures MakeOrderRow(cfg, d, 0, 0).value.key != d.key
    ensures forall id, now :: MakeOrderRow(cfg, d, id, now).Some?
                              && MakeOrderRow(cfg, d, id, now).value.key == MakeOrderRow(cfg, d, 0, 0).value.key
  {
    KeysFitOrChange(d.key);
  }

  /** ... and the second one, with the very same request, is told that it does not exist. */
  lemma ReplayOfACutKeyMisses(cfg: Config, d: Draft)
    requires cfg.poolSize >= 1 && IsCutButStorable(cfg, d)
    ensures exists s ::
              && Reachable(cfg, s) && |s.clients| == 2
              && s.clients[0].op == s.clients[1].op == Create(d)
              && s.clients[0].pc.Done? && s.clients[0].pc.outcome.Created?
              && s.clients[1].pc == Done(Failed(OrderNotFound))
  {
    hide Parse, NumericOut, MakeOrderRow, MakeItemRow, Init, Run, Total;
    var db, order := FirstCallStores(cfg, d);
    RowIds(cfg, d);
    var first := Client(Create(d), Done(Created(order)), NoWrites);
    var c0 := Client(Create(d), Start, NoWrites);
    InUseOfTwo(first, c0);
    SecondMoves(cfg, db, first, c0, Begin(1), c0.(pc := Insert));
    SecondMoves(cfg, db, first, c0.(pc := Insert), InsertOrder(1, 1, 0), c0.(pc := ReadRow(None)));
    SecondMoves(cfg, db, first, c0.(pc := ReadRow(None)), SelectRow(1), c0.(pc := Abort(OrderNotFound)));
    SecondMoves(cfg, db, first, c0.(pc := Abort(OrderNotFound)), Rollback(1), c0.(pc := Done(Failed(OrderNotFound))));
  }

  /** Such drafts exist: NewOrder lets this one through, and the columns store it. */
  lemma CutKeysExist(cfg: Config)
    requires cfg.cast("u").Some? && cfg.cast("p").Some?
    ensures var d := Draft("u", seq(256, _ => ' '), 100, Pending, [Line("p", 1, 100)]);
            NewOrderResult(d.user, d.key, d.lines) == Ok(d) && IsCutButStorable(cfg, d)
  {
    hide DecimalIn;
    var lines := [Line("p", 1, 100)];
    assert lines[..0] == [];
    assert TrueSum(lines) == 100;
    AmountsAreStoredExactly(100);
  }
}
