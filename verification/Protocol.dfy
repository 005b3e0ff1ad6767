/** Concurrent order creation as a step system: any number of calls of OrderRepo.Create and
    OrderRepo.GetByID against one PostgreSQL database at Read Committed, through one connection
    pool. Every statement is one step, and so is every way in which it can go wrong. */
module Protocol {
  import opened Results
  import opened Bags
  import opened Orders
  import opened Columns

  /** Committed data. `keyIndex` is the unique index on the idempotency key. `author` is history:
      the call whose transaction wrote the order. */
  datatype Db = Db(
    orders: map<Uuid, OrderRow>,
    keyIndex: map<string, Uuid>,
    items: seq<ItemRow>,
    author: map<Uuid, nat>)

  /** What is known about an open transaction with writes: its client still drives it, its
      connection broke, or its COMMIT was sent but never answered. */
  datatype Fate = Driven | Orphaned | InDoubt

  /** The uncommitted writes of a call's transaction. They hold the idempotency key. */
  datatype Tx = NoWrites | Writes(row: OrderRow, items: seq<ItemRow>, fate: Fate)

  datatype Op = Create(draft: Draft) | Get(id: string)

  /** Created and Replayed are the two successes of Create: created = true and created = false. */
  datatype Outcome =
    | Created(order: StoredOrder) | Replayed(order: StoredOrder) | Found(order: StoredOrder)
    | Failed(error: Error)

  /** The statement a call executes next. */
  datatype Pc =
    | Start
    | Insert
    | Items(id: Uuid, next: nat)
    | ReadRow(won: Option<Uuid>)
    | ReadItems(created: bool, head: StoredOrder)
    | Commit(created: bool, order: StoredOrder)
    | GetItems(head: StoredOrder)
    | Abort(error: Error)
    | Done(outcome: Outcome)

  datatype Client = Client(op: Op, pc: Pc, tx: Tx)

  datatype State = State(db: Db, clients: seq<Client>)

  /** What became of a COMMIT that returned an error. */
  datatype CommitLoss = NotApplied | Applied | Undecided

  datatype Action =
    | Begin(c: nat)
    | BeginFails(c: nat)
    | InsertOrder(c: nat, id: Uuid, now: int)
    | InsertItem(c: nat, id: Uuid)
    | CloseBatch(c: nat)
    | SelectRow(c: nat)
    | SelectItems(c: nat)
    | CommitSucceeds(c: nat)
    | CommitFails(c: nat, how: CommitLoss)
    | StatementFails(c: nat)
    | Rollback(c: nat)
    | ConnectionLost(c: nat)
    | PoolSelectRow(c: nat)
    | PoolSelectItems(c: nat)
    | PoolSelectFails(c: nat)
    | ServerAborts(c: nat)
    | ServerCommits(c: nat)

  // ----- the connection pool

  /** Create keeps one connection from Begin until it returns; GetByID takes one per query. */
  predicate HoldsConnection(client: Client) {
    match client.pc
    case Insert | Items(_, _) | ReadRow(_) | ReadItems(_, _) | Commit(_, _) | Abort(_) => true
    case Start | GetItems(_) | Done(_) => false
  }

  function Connections(client: Client): nat {
    if HoldsConnection(client) then 1 else 0
  }

  function InUse(clients: seq<Client>): nat {
    Total(clients, Connections)
  }

  // ----- what a statement sees: committed rows, and the writes of its own transaction

  function OwnItems(tx: Tx): seq<ItemRow> {
    if tx.Writes? then tx.items else []
  }

  function VisibleById(db: Db, tx: Tx, id: Uuid): Option<OrderRow> {
    if tx.Writes? && tx.row.id == id then Some(tx.row)
    else if id in db.orders then Some(db.orders[id])
    else None
  }

  function VisibleByKey(db: Db, tx: Tx, key: string): Option<OrderRow> {
    if tx.Writes? && tx.row.key == key then Some(tx.row)
    else if key in db.keyIndex && db.keyIndex[key] in db.orders then Some(db.orders[db.keyIndex[key]])
    else None
  }

  function VisibleItems(db: Db, tx: Tx, orderId: Uuid): seq<ItemRow> {
    SortById(ItemsOf(db.items + OwnItems(tx), orderId))
  }

  /** Some transaction that is not resolved yet has inserted this key. */
  predicate KeyIsHeld(clients: seq<Client>, key: string) {
    exists i | 0 <= i < |clients| :: clients[i].tx.Writes? && clients[i].tx.row.key == key
  }

  predicate OrderIdIsFresh(s: State, id: Uuid) {
    && id !in s.db.orders
    && forall i | 0 <= i < |s.clients| :: s.clients[i].tx.Writes? ==> s.clients[i].tx.row.id != id
  }

  predicate IdIsUnused(rows: seq<ItemRow>, id: Uuid) {
    forall j | 0 <= j < |rows| :: rows[j].id != id
  }

  predicate ItemIdIsFresh(s: State, id: Uuid) {
    && IdIsUnused(s.db.items, id)
    && forall i | 0 <= i < |s.clients| :: IdIsUnused(OwnItems(s.clients[i].tx), id)
  }

  // ----- the steps

  function Committed(db: Db, c: nat, tx: Tx): Db {
    if tx.Writes? then
      Db(db.orders[tx.row.id := tx.row], db.keyIndex[tx.row.key := tx.row.id],
         db.items + tx.items, db.author[tx.row.id := c])
    else db
  }

  function Update(s: State, c: nat, client: Client): State
    requires c < |s.clients|
  {
    s.(clients := s.clients[c := client])
  }

  function Moved(s: State, c: nat, pc: Pc): State
    requires c < |s.clients|
  {
    Update(s, c, s.clients[c].(pc := pc))
  }

  function Finished(s: State, c: nat, outcome: Outcome): State
    requires c < |s.clients|
  {
    Update(s, c, s.clients[c].(pc := Done(outcome), tx := NoWrites))
  }

  /** INSERT ... ON CONFLICT DO NOTHING RETURNING. Casts and constraints come first; a committed
      key yields no row; a key held by another transaction makes the statement wait. */
  function StepInsertOrder(cfg: Config, s: State, c: nat, id: Uuid, now: int): Option<State>
    requires c < |s.clients| && s.clients[c].op.Create?
  {
    match MakeOrderRow(cfg, s.clients[c].op.draft, id, now)
    case None => Some(Moved(s, c, Abort(Unexpected)))
    case Some(row) =>
      if row.key in s.db.keyIndex then Some(Moved(s, c, ReadRow(None)))
      else if KeyIsHeld(s.clients, row.key) || !OrderIdIsFresh(s, id) then None
      else Some(Update(s, c, s.clients[c].(pc := Items(id, 0), tx := Writes(row, [], Driven))))
  }

  /** One statement of the batch of item inserts. */
  function StepInsertItem(cfg: Config, s: State, c: nat, id: Uuid): Option<State>
    requires c < |s.clients| && s.clients[c].op.Create? && s.clients[c].pc.Items?
  {
    var client := s.clients[c];
    var lines, k := client.op.draft.lines, client.pc.next;
    if !client.tx.Writes? || k >= |lines| || !ItemIdIsFresh(s, id) then None
    else
      match MakeItemRow(cfg, lines[k], client.pc.id, id)
      case None => Some(Moved(s, c, Abort(Unexpected)))
      case Some(row) =>
        var written := client.tx.(items := client.tx.items + [row]);
        Some(Update(s, c, client.(pc := Items(client.pc.id, k + 1), tx := written)))
  }

  /** scanOrder inside the transaction: by id for the winner, by key after a conflict. */
  function StepSelectRow(s: State, c: nat): State
    requires c < |s.clients| && s.clients[c].op.Create? && s.clients[c].pc.ReadRow?
  {
    var client := s.clients[c];
    var row := match client.pc.won
               case Some(id) => VisibleById(s.db, client.tx, id)
               case None => VisibleByKey(s.db, client.tx, client.op.draft.key);
    match ScanResult(row)
    case Ok(head) => Moved(s, c, ReadItems(client.pc.won.Some?, head))
    case Err(e) => Moved(s, c, Abort(e))
  }

  function StepSelectItems(s: State, c: nat): State
    requires c < |s.clients| && s.clients[c].pc.ReadItems?
  {
    var client := s.clients[c];
    match AttachResult(VisibleItems(s.db, client.tx, client.pc.head.id))
    case Ok(lines) => Moved(s, c, Commit(client.pc.created, client.pc.head.(lines := lines)))
    case Err(e) => Moved(s, c, Abort(e))
  }

  function StepCommit(s: State, c: nat): State
    requires c < |s.clients| && s.clients[c].pc.Commit?
  {
    var client := s.clients[c];
    var outcome := if client.pc.created then Created(client.pc.order) else Replayed(client.pc.order);
    Finished(s.(db := Committed(s.db, c, client.tx)), c, outcome)
  }

  function StepCommitFails(s: State, c: nat, how: CommitLoss): State
    requires c < |s.clients| && s.clients[c].pc.Commit?
  {
    var client := s.clients[c];
    match how
    case NotApplied => Finished(s, c, Failed(Unexpected))
    case Applied => Finished(s.(db := Committed(s.db, c, client.tx)), c, Failed(Unexpected))
    case Undecided => Update(s, c, client.(pc := Done(Failed(Unexpected)), tx := Abandoned(client.tx, InDoubt)))
  }

  function Abandoned(tx: Tx, fate: Fate): Tx {
    if tx.Writes? then tx.(fate := fate) else NoWrites
  }

  /** The call returns its error at once; its transaction lingers on the server. */
  function StepConnectionLost(s: State, c: nat): State
    requires c < |s.clients|
  {
    var client := s.clients[c];
    var error := if client.pc.Abort? then client.pc.error else Unexpected;
    Update(s, c, client.(pc := Done(Failed(error)), tx := Abandoned(client.tx, Orphaned)))
  }

  /** GetByID outside any transaction: the order row, then the items. */
  function StepPoolSelectRow(cfg: Config, s: State, c: nat): State
    requires c < |s.clients| && s.clients[c].op.Get?
  {
    match cfg.cast(s.clients[c].op.id)
    case None => Finished(s, c, Failed(Unexpected))
    case Some(id) =>
      match ScanResult(VisibleById(s.db, NoWrites, id))
      case Ok(head) => Moved(s, c, GetItems(head))
      case Err(e) => Finished(s, c, Failed(e))
  }

  function StepPoolSelectItems(s: State, c: nat): State
    requires c < |s.clients| && s.clients[c].pc.GetItems?
  {
    var head := s.clients[c].pc.head;
    match AttachResult(VisibleItems(s.db, NoWrites, head.id))
    case Ok(lines) => Finished(s, c, Found(head.(lines := lines)))
    case Err(e) => Finished(s, c, Failed(e))
  }

  /** The state after a step, or None when the step is not possible now. */
  function Next(cfg: Config, s: State, a: Action): Option<State> {
    if a.c >= |s.clients| then None
    else
      var client := s.clients[a.c];
      if client.op.Get? then NextOfGet(cfg, s, a) else NextOfCreate(cfg, s, a)
  }

  function NextOfGet(cfg: Config, s: State, a: Action): Option<State>
    requires a.c < |s.clients| && s.clients[a.c].op.Get?
  {
    var pc, free := s.clients[a.c].pc, InUse(s.clients) < cfg.poolSize;
    match a
    case PoolSelectRow(c) => if pc.Start? && free then Some(StepPoolSelectRow(cfg, s, c)) else None
    case PoolSelectItems(c) => if pc.GetItems? && free then Some(StepPoolSelectItems(s, c)) else None
    case PoolSelectFails(c) => if pc.Start? || pc.GetItems? then Some(Finished(s, c, Failed(Unexpected))) else None
    case _ => None
  }

  function NextOfCreate(cfg: Config, s: State, a: Action): Option<State>
    requires a.c < |s.clients| && s.clients[a.c].op.Create?
  {
    var client := s.clients[a.c];
    var pc, tx := client.pc, client.tx;
    match a
    case Begin(c) => if pc.Start? && InUse(s.clients) < cfg.poolSize then Some(Moved(s, c, Insert)) else None
    case BeginFails(c) => if pc.Start? then Some(Finished(s, c, Failed(Unexpected))) else None
    case InsertOrder(c, id, now) => if pc.Insert? then StepInsertOrder(cfg, s, c, id, now) else None
    case InsertItem(c, id) => if pc.Items? then StepInsertItem(cfg, s, c, id) else None
    case CloseBatch(c) =>
      if pc.Items? && pc.next == |client.op.draft.lines| then Some(Moved(s, c, ReadRow(Some(pc.id)))) else None
    case SelectRow(c) => if pc.ReadRow? then Some(StepSelectRow(s, c)) else None
    case SelectItems(c) => if pc.ReadItems? then Some(StepSelectItems(s, c)) else None
    case CommitSucceeds(c) => if pc.Commit? then Some(StepCommit(s, c)) else None
    case CommitFails(c, how) => if pc.Commit? then Some(StepCommitFails(s, c, how)) else None
    case StatementFails(c) =>
      if pc.Insert? || pc.Items? || pc.ReadRow? || pc.ReadItems? then Some(Moved(s, c, Abort(Unexpected))) else None
    case Rollback(c) => if pc.Abort? then Some(Finished(s, c, Failed(pc.error))) else None
    case ConnectionLost(c) => if HoldsConnection(client) then Some(StepConnectionLost(s, c)) else None
    case ServerAborts(c) =>
      if tx.Writes? && !tx.fate.Driven? then Some(Update(s, c, client.(tx := NoWrites))) else None
    case ServerCommits(c) =>
      if tx.Writes? && tx.fate.InDoubt?
      then Some(Update(s.(db := Committed(s.db, c, tx)), c, client.(tx := NoWrites))) else None
    case _ => None
  }

  // ----- runs

  /** No order is stored and no call has started. */
  predicate Init(s: State) {
    && s.db == Db(map[], map[], [], map[])
    && forall c | 0 <= c < |s.clients| :: s.clients[c].pc.Start? && s.clients[c].tx.NoWrites?
  }

  /** The state that a sequence of steps leads to, if every one of them is possible in its turn. */
  function Run(cfg: Config, s: State, acts: seq<Action>): Option<State> {
    if acts == [] then Some(s)
    else
      match Run(cfg, s, acts[..|acts| - 1])
      case Some(t) => Next(cfg, t, acts[|acts| - 1])
      case None => None
  }

  /** `s` occurs in some interleaving of some set of calls. */
  ghost predicate Reachable(cfg: Config, s: State) {
    exists init, acts :: Init(init) && Run(cfg, init, acts) == Some(s)
  }
}
