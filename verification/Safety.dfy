/** Every step keeps the invariant, so it holds in every reachable state; and what it says there
    about orders, keys and answers. */
module Safety {
  import opened Results
  import opened Money
  import opened Columns
  import opened Protocol
  import opened Invariant

  // ----- step by step

  lemma InsertOrderKeepsInv(cfg: Config, s: State, c: nat, id: Uuid, now: int)
    requires Inv(cfg, s) && c < |s.clients| && s.clients[c].op.Create? && s.clients[c].pc.Insert?
    requires StepInsertOrder(cfg, s, c, id, now).Some?
    ensures Inv(cfg, StepInsertOrder(cfg, s, c, id, now).value)
  {
    hide MakeOrderRow, MakeItemRow, StoredKey, ScanResult, AttachResult, SortById, ItemsOf, LoadedLines, GetOk,
      WrittenByAuthor;
    var client := s.clients[c];
    assert ClientOk(cfg, s.db, c, client);
    match MakeOrderRow(cfg, client.op.draft, id, now) {
      case None =>
        QuietStep(cfg, s, c, client.(pc := Abort(Unexpected)));
      case Some(row) =>
        StoredRowsKeepTheOrder(cfg, client.op.draft, id, now);
        if row.key in s.db.keyIndex {
          QuietStep(cfg, s, c, client.(pc := ReadRow(None)));
        } else {
          LocalStep(cfg, s, c, client.(pc := Items(id, 0), tx := Writes(row, [], Driven)));
        }
    }
  }

  lemma InsertItemKeepsInv(cfg: Config, s: State, c: nat, id: Uuid)
    requires Inv(cfg, s) && c < |s.clients| && s.clients[c].op.Create? && s.clients[c].pc.Items?
    requires StepInsertItem(cfg, s, c, id).Some?
    ensures Inv(cfg, StepInsertItem(cfg, s, c, id).value)
  {
    hide MakeOrderRow, MakeItemRow, StoredKey, ScanResult, AttachResult, SortById, ItemsOf, LoadedLines, GetOk,
      WrittenByAuthor;
    var client := s.clients[c];
    assert ClientOk(cfg, s.db, c, client);
    match MakeItemRow(cfg, client.op.draft.lines[client.pc.next], client.pc.id, id) {
      case None =>
        QuietStep(cfg, s, c, client.(pc := Abort(Unexpected)));
      case Some(row) =>
        StoredRowsKeepTheLine(cfg, client.op.draft.lines[client.pc.next], client.pc.id, id);
        var items := client.tx.items + [row];
        assert IdIsUnused(OwnItems(client.tx), id);
        assert StoresLines(cfg, client.op.draft.lines, client.tx.row.id, items);
        QuietStep(cfg, s, c, client.(pc := Items(client.pc.id, client.pc.next + 1), tx := client.tx.(items := items)));
    }
  }

  /** A committed key always leads to its order. */
  lemma TakenKey(cfg: Config, s: State, key: string)
    requires Inv(cfg, s) && key in s.db.keyIndex
    ensures s.db.keyIndex[key] in s.db.orders
    ensures s.db.orders[s.db.keyIndex[key]].key == key
    ensures |key| <= 255
  {
    var id := s.db.keyIndex[key];
    assert WrittenByAuthor(cfg, s.db, s.clients, id);
  }

  /** What scanOrder is given: the winner's own row, or the row of the key it lost to. */
  lemma SelectedRow(cfg: Config, s: State, c: nat)
    requires Inv(cfg, s) && c < |s.clients| && s.clients[c].op.Create? && s.clients[c].pc.ReadRow?
    ensures var client := s.clients[c];
            match client.pc.won
            case Some(id) => VisibleById(s.db, client.tx, id) == Some(client.tx.row)
            case None =>
              var key := client.op.draft.key;
              && (IsCut(client.op.draft.key) ==> VisibleByKey(s.db, client.tx, key) == None)
              && (!IsCut(client.op.draft.key) ==>
                    KeyIsTaken(s.db, client.op.draft)
                    && VisibleByKey(s.db, client.tx, key) == Some(s.db.orders[s.db.keyIndex[key]]))
  {
    var client := s.clients[c];
    assert ClientOk(cfg, s.db, c, client);
    if client.pc.won.None? {
      var key := client.op.draft.key;
      KeysFitOrChange(key);
      TakenKey(cfg, s, StoredKey(key).value);
      if IsCut(client.op.draft.key) && key in s.db.keyIndex { TakenKey(cfg, s, key); }
    }
  }

  lemma SelectRowKeepsInv(cfg: Config, s: State, c: nat)
    requires Inv(cfg, s) && c < |s.clients| && s.clients[c].op.Create? && s.clients[c].pc.ReadRow?
    ensures Inv(cfg, StepSelectRow(s, c))
  {
    hide MakeOrderRow, MakeItemRow, StoredKey, Head, Parse, NumericOut, AttachResult, SortById, ItemsOf, LoadedLines,
      VisibleById, VisibleByKey, GetOk, WrittenByAuthor;
    var client := s.clients[c];
    assert ClientOk(cfg, s.db, c, client);
    SelectedRow(cfg, s, c);
    if client.pc.won.Some? {
      RowsLoad(client.tx.row);
      QuietStep(cfg, s, c, client.(pc := ReadItems(true, Head(client.tx.row))));
    } else if IsCut(client.op.draft.key) {
      QuietStep(cfg, s, c, client.(pc := Abort(OrderNotFound)));
    } else {
      var row := s.db.orders[s.db.keyIndex[client.op.draft.key]];
      RowsLoad(row);
      QuietStep(cfg, s, c, client.(pc := ReadItems(false, Head(row))));
    }
  }

  lemma SelectItemsKeepsInv(cfg: Config, s: State, c: nat)
    requires Inv(cfg, s) && c < |s.clients| && s.clients[c].op.Create? && s.clients[c].pc.ReadItems?
    ensures Inv(cfg, StepSelectItems(s, c))
  {
    var client := s.clients[c];
    var head := client.pc.head;
    assert ClientOk(cfg, s.db, c, client);
    var rows := VisibleItems(s.db, client.tx, head.id);
    LinesLoad(rows);
    var order := head.(lines := LoadedLines(rows));
    if client.pc.created {
      CommittedItems(cfg, s, c, client.tx.row.id);
      assert order == Loaded(client.tx.row, client.tx.items);
    } else {
      assert s.db.items + OwnItems(client.tx) == s.db.items;
      assert order == View(s.db, s.db.keyIndex[client.op.draft.key]);
    }
    QuietStep(cfg, s, c, client.(pc := Commit(client.pc.created, order)));
  }

  /** After its commit, the winner's answer is what everybody loads from then on. */
  lemma CommittedView(cfg: Config, s: State, c: nat)
    requires Inv(cfg, s) && c < |s.clients| && s.clients[c].tx.Writes?
    ensures var tx := s.clients[c].tx;
            View(Committed(s.db, c, tx), tx.row.id) == Loaded(tx.row, tx.items)
  {
    CommittedItems(cfg, s, c, s.clients[c].tx.row.id);
  }

  lemma CommitKeepsInv(cfg: Config, s: State, c: nat)
    requires Inv(cfg, s) && c < |s.clients| && s.clients[c].op.Create? && s.clients[c].pc.Commit?
    ensures Inv(cfg, StepCommit(s, c))
  {
    hide SortById, ItemsOf, LoadedLines;
    var client := s.clients[c];
    assert ClientOk(cfg, s.db, c, client);
    if client.pc.created {
      CommittedView(cfg, s, c);
      CommitStep(cfg, s, c, client.(pc := Done(Created(client.pc.order)), tx := NoWrites));
    } else {
      assert WrittenByAuthor(cfg, s.db, s.clients, s.db.keyIndex[client.op.draft.key]);
      QuietStep(cfg, s, c, client.(pc := Done(Replayed(client.pc.order)), tx := NoWrites));
    }
  }

  lemma FailedCommitKeepsInv(cfg: Config, s: State, c: nat, how: CommitLoss)
    requires Inv(cfg, s) && c < |s.clients| && s.clients[c].op.Create? && s.clients[c].pc.Commit?
    ensures Inv(cfg, StepCommitFails(s, c, how))
  {
    hide MakeOrderRow, MakeItemRow, StoredKey, Head, ScanResult, AttachResult, SortById, ItemsOf, LoadedLines;
    var client := s.clients[c];
    assert ClientOk(cfg, s.db, c, client);
    var failed := client.(pc := Done(Failed(Unexpected)));
    if how.Applied? && client.tx.Writes? {
      CommitStep(cfg, s, c, failed.(tx := NoWrites));
    } else if how.Undecided? {
      QuietStep(cfg, s, c, failed.(tx := Abandoned(client.tx, InDoubt)));
    } else {
      QuietStep(cfg, s, c, failed.(tx := NoWrites));
    }
  }

  lemma LostConnectionKeepsInv(cfg: Config, s: State, c: nat)
    requires Inv(cfg, s) && c < |s.clients| && s.clients[c].op.Create? && HoldsConnection(s.clients[c])
    ensures Inv(cfg, StepConnectionLost(s, c))
  {
    hide LoadedLines;
    var client := s.clients[c];
    assert ClientOk(cfg, s.db, c, client);
    var error := if client.pc.Abort? then client.pc.error else Unexpected;
    QuietStep(cfg, s, c, client.(pc := Done(Failed(error)), tx := Abandoned(client.tx, Orphaned)));
  }

  lemma ServerResolvesKeepsInv(cfg: Config, s: State, a: Action)
    requires Inv(cfg, s) && a.c < |s.clients| && s.clients[a.c].op.Create?
    requires (a.ServerAborts? || a.ServerCommits?) && NextOfCreate(cfg, s, a).Some?
    ensures Inv(cfg, NextOfCreate(cfg, s, a).value)
  {
    hide MakeItemRow, Head, AttachResult, SortById, LoadedLines;
    var client := s.clients[a.c];
    assert ClientOk(cfg, s.db, a.c, client);
    if a.ServerAborts? {
      QuietStep(cfg, s, a.c, client.(tx := NoWrites));
    } else {
      CommitStep(cfg, s, a.c, client.(tx := NoWrites));
    }
  }

  lemma PoolSelectKeepsInv(cfg: Config, s: State, a: Action)
    requires Inv(cfg, s) && a.c < |s.clients| && s.clients[a.c].op.Get?
    requires NextOfGet(cfg, s, a).Some?
    ensures Inv(cfg, NextOfGet(cfg, s, a).value)
  {
    hide CreateOk, WrittenByAuthor;
    var client := s.clients[a.c];
    assert ClientOk(cfg, s.db, a.c, client);
    if a.PoolSelectRow? {
      match cfg.cast(client.op.id) {
        case None =>
        case Some(id) =>
          if id in s.db.orders { RowsLoad(s.db.orders[id]); }
      }
    } else if a.PoolSelectItems? {
      var head := client.pc.head;
      LinesLoad(VisibleItems(s.db, NoWrites, head.id));
      assert s.db.items + OwnItems(NoWrites) == s.db.items;
    }
    QuietStep(cfg, s, a.c, NextOfGet(cfg, s, a).value.clients[a.c]);
  }

  lemma SimpleStepKeepsInv(cfg: Config, s: State, a: Action)
    requires Inv(cfg, s) && a.c < |s.clients| && s.clients[a.c].op.Create?
    requires a.Begin? || a.BeginFails? || a.CloseBatch? || a.StatementFails? || a.Rollback?
    requires NextOfCreate(cfg, s, a).Some?
    ensures Inv(cfg, NextOfCreate(cfg, s, a).value)
  {
    hide MakeOrderRow, MakeItemRow, StoredKey, Head, ScanResult, AttachResult, SortById, ItemsOf, LoadedLines;
    assert ClientOk(cfg, s.db, a.c, s.clients[a.c]);
    QuietStep(cfg, s, a.c, NextOfCreate(cfg, s, a).value.clients[a.c]);
  }

  lemma StepKeepsInv(cfg: Config, s: State, a: Action)
    requires Inv(cfg, s) && Next(cfg, s, a).Some?
    ensures Inv(cfg, Next(cfg, s, a).value)
  {
    hide MakeOrderRow, MakeItemRow, StoredKey, Head, ScanResult, AttachResult, SortById, ItemsOf, LoadedLines, Inv;
    if s.clients[a.c].op.Get? {
      PoolSelectKeepsInv(cfg, s, a);
    } else {
      match a
      case InsertOrder(c, id, now) => InsertOrderKeepsInv(cfg, s, c, id, now);
      case InsertItem(c, id) => InsertItemKeepsInv(cfg, s, c, id);
      case SelectRow(c) => SelectRowKeepsInv(cfg, s, c);
      case SelectItems(c) => SelectItemsKeepsInv(cfg, s, c);
      case CommitSucceeds(c) => CommitKeepsInv(cfg, s, c);
      case CommitFails(c, how) => FailedCommitKeepsInv(cfg, s, c, how);
      case ConnectionLost(c) => LostConnectionKeepsInv(cfg, s, c);
      case ServerAborts(_) => ServerResolvesKeepsInv(cfg, s, a);
      case ServerCommits(_) => ServerResolvesKeepsInv(cfg, s, a);
      case _ => SimpleStepKeepsInv(cfg, s, a);
    }
  }

  lemma {:induction false} RunKeepsInv(cfg: Config, s: State, acts: seq<Action>)
    requires Inv(cfg, s) && Run(cfg, s, acts).Some?
    ensures Inv(cfg, Run(cfg, s, acts).value)
  {
    if acts != [] {
      var front := acts[..|acts| - 1];
      RunKeepsInv(cfg, s, front);
      StepKeepsInv(cfg, Run(cfg, s, front).value, acts[|acts| - 1]);
    }
  }

  /** Every interleaving of any number of calls, with failures anywhere, stays inside. */
  lemma ReachableInv(cfg: Config, s: State)
    requires Reachable(cfg, s)
    ensures Inv(cfg, s)
  {
    var init, acts :| Init(init) && Run(cfg, init, acts) == Some(s);
    InitInv(cfg, init);
    RunKeepsInv(cfg, init, acts);
  }

  lemma ReachableStep(cfg: Config, s: State, a: Action, t: State)
    requires Reachable(cfg, s) && Next(cfg, s, a) == Some(t)
    ensures Reachable(cfg, t)
  {
    hide Next;
    var init, acts :| Init(init) && Run(cfg, init, acts) == Some(s);
    assert (acts + [a])[..|acts|] == acts;
    assert Run(cfg, init, acts + [a]) == Some(t);
  }

  lemma {:induction false} ReachableRun(cfg: Config, s: State, acts: seq<Action>, t: State)
    requires Reachable(cfg, s) && Run(cfg, s, acts) == Some(t)
    ensures Reachable(cfg, t)
  {
    if acts != [] {
      var before := Run(cfg, s, acts[..|acts| - 1]).value;
      ReachableRun(cfg, s, acts[..|acts| - 1], before);
      ReachableStep(cfg, before, acts[|acts| - 1], t);
    }
  }
}
