/** What every step of the protocol keeps, and with it what holds in every reachable state. */
module Invariant {
  import opened Results
  import opened Bags
  import opened Orders
  import opened Columns
  import opened Protocol

  // ----- the database

  /** An order as any statement loads it from then on. */
  function View(db: Db, id: Uuid): StoredOrder
    requires id in db.orders
  {
    Loaded(db.orders[id], ItemsOf(db.items, id))
  }

  function Loaded(row: OrderRow, items: seq<ItemRow>): StoredOrder {
    Head(row).(lines := LoadedLines(SortById(items)))
  }

  /** The rows are those of the first lines of an order, one for one. */
  predicate StoresLines(cfg: Config, lines: seq<Line<string>>, orderId: Uuid, rows: seq<ItemRow>) {
    && |rows| <= |lines|
    && DistinctIds(rows)
    && forall j | 0 <= j < |rows| :: IsItemOf(cfg, lines[j], orderId, rows[j])
  }

  /** The unique index and the primary key agree with the table, and every item has its order. */
  ghost predicate IndexOk(db: Db) {
    && (forall key | key in db.keyIndex :: db.keyIndex[key] in db.orders && db.orders[db.keyIndex[key]].key == key)
    && (forall id | id in db.orders ::
          && db.orders[id].id == id
          && db.orders[id].key in db.keyIndex && db.keyIndex[db.orders[id].key] == id)
    && (forall i | 0 <= i < |db.items| :: db.items[i].orderId in db.orders)
  }

  /** A call that will take no further step of any kind. */
  predicate Settled(client: Client) {
    client.pc.Done? && client.tx.NoWrites?
  }

  /** A committed order is exactly what one single call submitted, with all of its lines. */
  ghost predicate WrittenByAuthor(cfg: Config, db: Db, clients: seq<Client>, id: Uuid)
    requires id in db.orders
  {
    && id in db.author && db.author[id] < |clients|
    && var author := clients[db.author[id]];
       && author.op.Create? && Settled(author)
       && IsRowOf(cfg, author.op.draft, db.orders[id])
       && StoresLines(cfg, author.op.draft.lines, id, ItemsOf(db.items, id))
       && |ItemsOf(db.items, id)| == |author.op.draft.lines|
  }

  ghost predicate AuthorsOk(cfg: Config, db: Db, clients: seq<Client>) {
    && (forall id | id in db.orders :: WrittenByAuthor(cfg, db, clients, id))
    && (forall i, j | i in db.orders && j in db.orders && i != j ::
          i in db.author && j in db.author && db.author[i] != db.author[j])
  }

  // ----- one call

  /** The uncommitted writes of a call are a prefix of what it submitted. */
  predicate TxOk(cfg: Config, client: Client) {
    client.tx.Writes? ==>
      && client.op.Create?
      && IsRowOf(cfg, client.op.draft, client.tx.row)
      && StoresLines(cfg, client.op.draft.lines, client.tx.row.id, client.tx.items)
      && (client.tx.fate.InDoubt? ==> |client.tx.items| == |client.op.draft.lines|)
  }

  /** Everything is written, and only the commit is missing. */
  predicate Complete(client: Client) {
    && client.op.Create? && client.tx.Writes? && client.tx.fate.Driven?
    && |client.tx.items| == |client.op.draft.lines|
  }

  /** The key of this draft leads to a committed order. */
  predicate KeyIsTaken(db: Db, d: Draft) {
    d.key in db.keyIndex && db.keyIndex[d.key] in db.orders
  }

  predicate CreateOk(db: Db, c: nat, client: Client)
    requires client.op.Create?
  {
    var d, tx := client.op.draft, client.tx;
    match client.pc
    case Start | Insert => tx.NoWrites?
    case Items(id, next) =>
      tx.Writes? && tx.fate.Driven? && tx.row.id == id && |tx.items| == next && next <= |d.lines|
    case ReadRow(Some(id)) => Complete(client) && tx.row.id == id
    case ReadRow(None) => tx.NoWrites? && StoredKey(d.key).Some? && StoredKey(d.key).value in db.keyIndex
    case ReadItems(true, head) => Complete(client) && head == Head(tx.row)
    case ReadItems(false, head) => tx.NoWrites? && KeyIsTaken(db, d) && head == Head(db.orders[db.keyIndex[d.key]])
    case Commit(true, order) => Complete(client) && order == Loaded(tx.row, tx.items)
    case Commit(false, order) => tx.NoWrites? && KeyIsTaken(db, d) && order == View(db, db.keyIndex[d.key])
    case Abort(e) =>
      if tx.Writes? then tx.fate.Driven? && e == Unexpected
      else e == Unexpected || (e == OrderNotFound && IsCut(d.key))
    case Done(Created(order)) =>
      && tx.NoWrites? && order.id in db.orders && order == View(db, order.id)
      && order.id in db.author && db.author[order.id] == c
    case Done(Replayed(order)) =>
      && tx.NoWrites? && KeyIsTaken(db, d) && order == View(db, db.keyIndex[d.key])
      && order.id in db.orders && order.id in db.author && db.author[order.id] != c
    case Done(Failed(e)) =>
      if tx.Writes? then !tx.fate.Driven? && e == Unexpected
      else e == Unexpected || (e == OrderNotFound && IsCut(d.key))
    case Done(Found(_)) => false
    case GetItems(_) => false
  }

  predicate GetOk(cfg: Config, db: Db, client: Client)
    requires client.op.Get?
  {
    && client.tx.NoWrites?
    && match client.pc
       case Start => true
       case GetItems(head) =>
         head.id in db.orders && head == Head(db.orders[head.id]) && cfg.cast(client.op.id) == Some(head.id)
       case Done(Found(order)) =>
         order.id in db.orders && order == View(db, order.id) && cfg.cast(client.op.id) == Some(order.id)
       case Done(Failed(e)) => e == Unexpected || e == OrderNotFound
       case _ => false
  }

  predicate ClientOk(cfg: Config, db: Db, c: nat, client: Client) {
    && TxOk(cfg, client)
    && (client.op.Create? ==> CreateOk(db, c, client))
    && (client.op.Get? ==> GetOk(cfg, db, client))
  }

  // ----- several calls

  /** The writes of an unresolved transaction collide with nothing that is committed ... */
  predicate NotCommitted(db: Db, tx: Tx) {
    tx.Writes? ==> tx.row.key !in db.keyIndex && tx.row.id !in db.orders
  }

  /** ... and not with those of another transaction. */
  predicate Apart(a: Tx, b: Tx) {
    a.Writes? && b.Writes? ==> a.row.key != b.row.key && a.row.id != b.row.id
  }

  ghost predicate PendingOk(db: Db, clients: seq<Client>) {
    && (forall i | 0 <= i < |clients| :: NotCommitted(db, clients[i].tx))
    && (forall i, j | 0 <= i < j < |clients| :: Apart(clients[i].tx, clients[j].tx))
  }

  ghost predicate ClientsOk(cfg: Config, db: Db, clients: seq<Client>) {
    forall i | 0 <= i < |clients| :: ClientOk(cfg, db, i, clients[i])
  }

  ghost predicate Inv(cfg: Config, s: State) {
    && IndexOk(s.db)
    && AuthorsOk(cfg, s.db, s.clients)
    && ClientsOk(cfg, s.db, s.clients)
    && PendingOk(s.db, s.clients)
    && InUse(s.clients) <= cfg.poolSize
  }

  lemma InitInv(cfg: Config, s: State)
    requires Init(s)
    ensures Inv(cfg, s)
  {
    TotalOfNothing(s.clients, Connections);
  }

  // ----- steps that leave the committed data alone

  /** The obligations of a step that changes one call and nothing else. */
  lemma LocalStep(cfg: Config, s: State, c: nat, client: Client)
    requires Inv(cfg, s) && c < |s.clients|
    requires !Settled(s.clients[c]) && client.op == s.clients[c].op
    requires ClientOk(cfg, s.db, c, client)
    requires NotCommitted(s.db, client.tx)
    requires forall i | 0 <= i < |s.clients| && i != c :: Apart(client.tx, s.clients[i].tx)
    requires HoldsConnection(client) ==> HoldsConnection(s.clients[c]) || InUse(s.clients) < cfg.poolSize
    ensures Inv(cfg, Update(s, c, client))
  {
    var clients := s.clients[c := client];
    assert InUse(clients) <= cfg.poolSize by { TotalAfterUpdate(s.clients, Connections, c, client); }
    assert AuthorsOk(cfg, s.db, clients) by { AuthorsStaySettled(cfg, s, c, client); }
    assert PendingOk(s.db, clients) by { PendingAfterUpdate(s.db, s.clients, c, client); }
  }

  lemma AuthorsStaySettled(cfg: Config, s: State, c: nat, client: Client)
    requires AuthorsOk(cfg, s.db, s.clients) && c < |s.clients| && !Settled(s.clients[c])
    ensures AuthorsOk(cfg, s.db, s.clients[c := client])
  {
  }

  lemma PendingAfterUpdate(db: Db, clients: seq<Client>, c: nat, client: Client)
    requires PendingOk(db, clients) && c < |clients|
    requires NotCommitted(db, client.tx)
    requires forall i | 0 <= i < |clients| && i != c :: Apart(client.tx, clients[i].tx)
    ensures PendingOk(db, clients[c := client])
  {
  }

  /** The common case: the writes stay what they were, or are given up. */
  lemma QuietStep(cfg: Config, s: State, c: nat, client: Client)
    requires Inv(cfg, s) && c < |s.clients|
    requires !Settled(s.clients[c]) && client.op == s.clients[c].op
    requires ClientOk(cfg, s.db, c, client)
    requires client.tx.Writes? ==> s.clients[c].tx.Writes? && client.tx.row == s.clients[c].tx.row
    requires HoldsConnection(client) ==> HoldsConnection(s.clients[c]) || InUse(s.clients) < cfg.poolSize
    ensures Inv(cfg, Update(s, c, client))
  {
    assert NotCommitted(s.db, s.clients[c].tx);
    forall i | 0 <= i < |s.clients| && i != c ensures Apart(client.tx, s.clients[i].tx) {
      assert Apart(s.clients[c].tx, s.clients[i].tx) || Apart(s.clients[i].tx, s.clients[c].tx);
    }
    LocalStep(cfg, s, c, client);
  }

  // ----- committing

  /** Committed orders stay as they are, whatever is committed next to them. */
  ghost predicate Grows(db: Db, db': Db) {
    && (forall id | id in db.orders ::
          && id in db'.orders && db'.orders[id] == db.orders[id]
          && ItemsOf(db'.items, id) == ItemsOf(db.items, id)
          && (id in db.author ==> id in db'.author && db'.author[id] == db.author[id]))
    && (forall key | key in db.keyIndex :: key in db'.keyIndex && db'.keyIndex[key] == db.keyIndex[key])
  }

  lemma ClientsSurviveGrowth(cfg: Config, db: Db, db': Db, c: nat, client: Client)
    requires ClientOk(cfg, db, c, client) && Grows(db, db')
    ensures ClientOk(cfg, db', c, client)
  {
  }

  lemma StoredLinesBelong(cfg: Config, lines: seq<Line<string>>, orderId: Uuid, rows: seq<ItemRow>)
    requires StoresLines(cfg, lines, orderId, rows)
    ensures forall j | 0 <= j < |rows| :: rows[j].orderId == orderId
  {
  }

  /** What a commit adds to the items: nothing for older orders, everything for its own. */
  lemma CommittedItems(cfg: Config, s: State, c: nat, id: Uuid)
    requires Inv(cfg, s) && c < |s.clients| && s.clients[c].tx.Writes?
    ensures var tx := s.clients[c].tx;
            && (id in s.db.orders ==> ItemsOf(s.db.items + tx.items, id) == ItemsOf(s.db.items, id))
            && (id == tx.row.id ==> ItemsOf(s.db.items + tx.items, id) == tx.items)
  {
    var tx := s.clients[c].tx;
    assert TxOk(cfg, s.clients[c]) && NotCommitted(s.db, tx);
    StoredLinesBelong(cfg, s.clients[c].op.draft.lines, tx.row.id, tx.items);
    ItemsOfConcat(s.db.items, tx.items, id);
    if id in s.db.orders {
      ItemsOfOthers(tx.items, id);
    } else if id == tx.row.id {
      ItemsOfOthers(s.db.items, id);
      ItemsOfOwn(tx.items, id);
    }
  }

  lemma CommitGrows(cfg: Config, s: State, c: nat)
    requires Inv(cfg, s) && c < |s.clients| && s.clients[c].tx.Writes?
    ensures Grows(s.db, Committed(s.db, c, s.clients[c].tx))
    ensures IndexOk(Committed(s.db, c, s.clients[c].tx))
  {
    var tx := s.clients[c].tx;
    assert TxOk(cfg, s.clients[c]) && NotCommitted(s.db, tx);
    StoredLinesBelong(cfg, s.clients[c].op.draft.lines, tx.row.id, tx.items);
    forall id | id in s.db.orders
      ensures ItemsOf(Committed(s.db, c, tx).items, id) == ItemsOf(s.db.items, id)
    {
      CommittedItems(cfg, s, c, id);
    }
    CommitKeepsIndex(s.db, c, tx);
  }

  lemma CommitKeepsIndex(db: Db, c: nat, tx: Tx)
    requires IndexOk(db) && tx.Writes? && NotCommitted(db, tx)
    requires forall j | 0 <= j < |tx.items| :: tx.items[j].orderId == tx.row.id
    ensures IndexOk(Committed(db, c, tx))
  {
  }

  /** The obligations of a step that commits the writes of a call and ends its transaction. */
  lemma CommitStep(cfg: Config, s: State, c: nat, client: Client)
    requires Inv(cfg, s) && c < |s.clients|
    requires s.clients[c].op.Create? && s.clients[c].tx.Writes?
    requires |s.clients[c].tx.items| == |s.clients[c].op.draft.lines|
    requires client.op == s.clients[c].op && Settled(client)
    requires ClientOk(cfg, Committed(s.db, c, s.clients[c].tx), c, client)
    ensures Inv(cfg, Update(s.(db := Committed(s.db, c, s.clients[c].tx)), c, client))
  {
    hide Head, ScanResult, AttachResult, SortById, ItemsOf, LoadedLines, TxOk, CreateOk, GetOk, WrittenByAuthor,
      Committed;
    var db' := Committed(s.db, c, s.clients[c].tx);
    CommitKeepsAuthors(cfg, s, c, client);
    assert IndexOk(db') by { CommitGrows(cfg, s, c); }
    TotalAfterUpdate(s.clients, Connections, c, client);
    var clients := s.clients[c := client];
    forall i | 0 <= i < |clients| ensures ClientOk(cfg, db', i, clients[i]) && NotCommitted(db', clients[i].tx) {
      if i != c { OthersAfterCommit(cfg, s, c, i); }
    }
    assert forall i, j | 0 <= i < j < |clients| :: Apart(clients[i].tx, clients[j].tx);
  }

  lemma OthersAfterCommit(cfg: Config, s: State, c: nat, i: nat)
    requires Inv(cfg, s) && c < |s.clients| && i < |s.clients| && i != c
    requires s.clients[c].tx.Writes?
    ensures var db' := Committed(s.db, c, s.clients[c].tx);
            ClientOk(cfg, db', i, s.clients[i]) && NotCommitted(db', s.clients[i].tx)
  {
    var tx := s.clients[c].tx;
    CommitGrows(cfg, s, c);
    ClientsSurviveGrowth(cfg, s.db, Committed(s.db, c, tx), i, s.clients[i]);
    assert Apart(tx, s.clients[i].tx) || Apart(s.clients[i].tx, tx);
    assert NotCommitted(s.db, s.clients[i].tx);
  }

  lemma CommitKeepsAuthors(cfg: Config, s: State, c: nat, client: Client)
    requires Inv(cfg, s) && c < |s.clients|
    requires s.clients[c].op.Create? && s.clients[c].tx.Writes?
    requires |s.clients[c].tx.items| == |s.clients[c].op.draft.lines|
    requires client.op == s.clients[c].op && Settled(client)
    ensures AuthorsOk(cfg, Committed(s.db, c, s.clients[c].tx), s.clients[c := client])
  {
    hide ItemsOf, CreateOk, GetOk, TxOk, IndexOk, PendingOk, StoresLines, IsRowOf, Settled, Total;
    var db' := Committed(s.db, c, s.clients[c].tx);
    forall id | id in db'.orders
      ensures WrittenByAuthor(cfg, db', s.clients[c := client], id)
      ensures id != s.clients[c].tx.row.id ==> id in s.db.orders && db'.author[id] != c
    {
      if id == s.clients[c].tx.row.id {
        NewOrderIsWritten(cfg, s, c, client);
      } else {
        OldOrderStaysWritten(cfg, s, c, client, id);
      }
    }
  }

  lemma NewOrderIsWritten(cfg: Config, s: State, c: nat, client: Client)
    requires Inv(cfg, s) && c < |s.clients|
    requires s.clients[c].op.Create? && s.clients[c].tx.Writes?
    requires |s.clients[c].tx.items| == |s.clients[c].op.draft.lines|
    requires client.op == s.clients[c].op && Settled(client)
    ensures WrittenByAuthor(cfg, Committed(s.db, c, s.clients[c].tx), s.clients[c := client], s.clients[c].tx.row.id)
  {
    CommittedItems(cfg, s, c, s.clients[c].tx.row.id);
    assert TxOk(cfg, s.clients[c]);
  }

  lemma OldOrderStaysWritten(cfg: Config, s: State, c: nat, client: Client, id: Uuid)
    requires Inv(cfg, s) && c < |s.clients| && s.clients[c].tx.Writes?
    requires id in s.db.orders
    ensures id != s.clients[c].tx.row.id
    ensures WrittenByAuthor(cfg, Committed(s.db, c, s.clients[c].tx), s.clients[c := client], id)
    ensures id in s.db.author && s.db.author[id] != c
  {
    hide ItemsOf, CreateOk, GetOk;
    assert WrittenByAuthor(cfg, s.db, s.clients, id);
    assert NotCommitted(s.db, s.clients[c].tx);
    CommittedItems(cfg, s, c, id);
  }
}
