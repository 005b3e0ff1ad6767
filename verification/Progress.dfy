/** No interleaving gets stuck, and none goes on for ever. */
module Progress {
  import opened Results
  import opened Bags
  import opened Columns
  import opened Protocol
  import opened Invariant
  import opened Safety

  // ----- every step uses something up

  /** An upper bound on the steps that are left for a call and for its transaction. */
  function Weight(client: Client): nat {
    var lines := if client.op.Create? then |client.op.draft.lines| else 0;
    (match client.pc
     case Start => if client.op.Get? then 3 else lines + 9
     case Insert => lines + 8
     case Items(_, next) => 6 + (if next < lines then lines - next else 0)
     case ReadRow(_) => 5
     case ReadItems(_, _) => 4
     case Commit(_, _) => 3
     case GetItems(_) => 2
     case Abort(_) => 2
     case Done(_) => 0)
    + (if client.tx.Writes? then 1 else 0)
  }

  function Rank(s: State): nat { Total(s.clients, Weight) }

  /** A step changes one call, and brings it closer to its end. */
  predicate ShortensOnly(s: State, c: nat, t: State) {
    && c < |s.clients| == |t.clients|
    && t.clients == s.clients[c := t.clients[c]]
    && t.clients[c].op == s.clients[c].op
    && Weight(t.clients[c]) < Weight(s.clients[c])
  }

  lemma StepIsLocal(cfg: Config, s: State, a: Action)
    requires Next(cfg, s, a).Some?
    ensures ShortensOnly(s, a.c, Next(cfg, s, a).value)
  {
    if s.clients[a.c].op.Get? {
      GetStepIsLocal(cfg, s, a);
    } else if a.InsertOrder? || a.InsertItem? {
      InsertStepIsLocal(cfg, s, a);
    } else if a.SelectRow? || a.SelectItems? {
      SelectStepIsLocal(cfg, s, a);
    } else if a.CommitSucceeds? || a.CommitFails? {
      CommitStepIsLocal(cfg, s, a);
    } else {
      OtherStepIsLocal(cfg, s, a);
    }
  }

  lemma GetStepIsLocal(cfg: Config, s: State, a: Action)
    requires a.c < |s.clients| && s.clients[a.c].op.Get? && NextOfGet(cfg, s, a).Some?
    ensures ShortensOnly(s, a.c, NextOfGet(cfg, s, a).value)
  {
    hide MakeOrderRow, MakeItemRow, StoredKey, Head, ScanResult, AttachResult, SortById, ItemsOf, LoadedLines, InUse;
  }

  lemma InsertStepIsLocal(cfg: Config, s: State, a: Action)
    requires a.c < |s.clients| && s.clients[a.c].op.Create? && NextOfCreate(cfg, s, a).Some?
    requires a.InsertOrder? || a.InsertItem?
    ensures ShortensOnly(s, a.c, NextOfCreate(cfg, s, a).value)
  {
    hide MakeOrderRow, MakeItemRow, ScanResult, AttachResult, SortById, ItemsOf, InUse;
    if a.InsertItem? { assert s.clients[a.c].tx.Writes?; }
  }

  lemma SelectStepIsLocal(cfg: Config, s: State, a: Action)
    requires a.c < |s.clients| && s.clients[a.c].op.Create? && NextOfCreate(cfg, s, a).Some?
    requires a.SelectRow? || a.SelectItems?
    ensures ShortensOnly(s, a.c, NextOfCreate(cfg, s, a).value)
  {
    hide MakeOrderRow, MakeItemRow, Head, ScanResult, AttachResult;
  }

  lemma CommitStepIsLocal(cfg: Config, s: State, a: Action)
    requires a.c < |s.clients| && s.clients[a.c].op.Create? && NextOfCreate(cfg, s, a).Some?
    requires a.CommitSucceeds? || a.CommitFails?
    ensures ShortensOnly(s, a.c, NextOfCreate(cfg, s, a).value)
  {
    hide MakeOrderRow, MakeItemRow, ScanResult, AttachResult;
  }

  lemma OtherStepIsLocal(cfg: Config, s: State, a: Action)
    requires a.c < |s.clients| && s.clients[a.c].op.Create? && NextOfCreate(cfg, s, a).Some?
    requires !(a.InsertOrder? || a.InsertItem? || a.SelectRow? || a.SelectItems? || a.CommitSucceeds? || a.CommitFails?)
    ensures ShortensOnly(s, a.c, NextOfCreate(cfg, s, a).value)
  {
    hide MakeOrderRow, ScanResult, AttachResult, SortById, LoadedLines, InUse;
  }

  lemma StepLowersRank(cfg: Config, s: State, a: Action)
    requires Next(cfg, s, a).Some?
    ensures Rank(Next(cfg, s, a).value) < Rank(s)
  {
    StepIsLocal(cfg, s, a);
    TotalAfterUpdate(s.clients, Weight, a.c, Next(cfg, s, a).value.clients[a.c]);
  }

  /** No run is longer than the rank of the state it starts from. */
  lemma {:induction false} RunsAreBounded(cfg: Config, s: State, acts: seq<Action>)
    requires Run(cfg, s, acts).Some?
    ensures |acts| + Rank(Run(cfg, s, acts).value) <= Rank(s)
  {
    if acts != [] {
      var front := acts[..|acts| - 1];
      RunsAreBounded(cfg, s, front);
      StepLowersRank(cfg, Run(cfg, s, front).value, acts[|acts| - 1]);
    }
  }

  // ----- somebody can always go on

  /** The steps that are not failures. */
  predicate IsHelpful(a: Action) {
    !(a.BeginFails? || a.StatementFails? || a.CommitFails? || a.ConnectionLost? || a.PoolSelectFails?)
  }

  lemma {:induction false} FreshNumber(used: set<nat>) returns (n: nat)
    ensures forall u | u in used :: u < n
  {
    if used == {} {
      n := 0;
    } else {
      var u :| u in used;
      n := FreshNumber(used - {u});
      n := n + u + 1;
      assert used == (used - {u}) + {u};
    }
  }

  lemma FreshOrderId(s: State) returns (id: Uuid)
    ensures OrderIdIsFresh(s, id)
  {
    var pending := set i | 0 <= i < |s.clients| && s.clients[i].tx.Writes? :: s.clients[i].tx.row.id;
    id := FreshNumber(s.db.orders.Keys + pending);
    forall i | 0 <= i < |s.clients| && s.clients[i].tx.Writes? ensures s.clients[i].tx.row.id != id {
      assert s.clients[i].tx.row.id in pending;
    }
  }

  lemma FreshItemId(s: State) returns (id: Uuid)
    ensures ItemIdIsFresh(s, id)
  {
    var committed := set j | 0 <= j < |s.db.items| :: s.db.items[j].id;
    var pending := set i, j | 0 <= i < |s.clients| && 0 <= j < |OwnItems(s.clients[i].tx)|
                     :: OwnItems(s.clients[i].tx)[j].id;
    id := FreshNumber(committed + pending);
    forall j | 0 <= j < |s.db.items| ensures s.db.items[j].id != id {
      assert s.db.items[j].id in committed;
    }
    forall i, j | 0 <= i < |s.clients| && 0 <= j < |OwnItems(s.clients[i].tx)|
      ensures OwnItems(s.clients[i].tx)[j].id != id
    {
      assert OwnItems(s.clients[i].tx)[j].id in pending;
    }
  }

  lemma CallShape(cfg: Config, s: State, c: nat)
    requires Inv(cfg, s) && c < |s.clients| && HoldsConnection(s.clients[c])
    ensures var client := s.clients[c];
            && client.op.Create?
            && (client.pc.Items? ==> client.tx.Writes? && client.pc.next <= |client.op.draft.lines|)
  {
    assert ClientOk(cfg, s.db, c, s.clients[c]);
  }

  /** A call inside its transaction can step, unless it waits for a key. */
  lemma InserterCanStep(cfg: Config, s: State, c: nat) returns (a: Action)
    requires c < |s.clients| && s.clients[c].op.Create? && s.clients[c].pc.Insert?
    requires forall key :: !KeyIsHeld(s.clients, key)
    ensures a.InsertOrder? && Next(cfg, s, a).Some?
  {
    var id := FreshOrderId(s);
    a := InsertOrder(c, id, 0);
    assert StepInsertOrder(cfg, s, c, id, 0).Some?;
  }

  lemma BatchCanStep(cfg: Config, s: State, c: nat) returns (a: Action)
    requires c < |s.clients| && s.clients[c].op.Create? && s.clients[c].pc.Items?
    requires s.clients[c].tx.Writes? && s.clients[c].pc.next <= |s.clients[c].op.draft.lines|
    ensures (a.InsertItem? || a.CloseBatch?) && Next(cfg, s, a).Some?
  {
    hide StoredKey;
    if s.clients[c].pc.next < |s.clients[c].op.draft.lines| {
      var id := FreshItemId(s);
      a := InsertItem(c, id);
      assert StepInsertItem(cfg, s, c, id).Some?;
    } else {
      a := CloseBatch(c);
    }
  }

  lemma CallInTransactionCanStep(cfg: Config, s: State, c: nat) returns (a: Action)
    requires Inv(cfg, s) && c < |s.clients| && HoldsConnection(s.clients[c])
    requires s.clients[c].pc.Insert? ==> forall key :: !KeyIsHeld(s.clients, key)
    ensures IsHelpful(a) && Next(cfg, s, a).Some?
  {
    hide Inv, StepInsertOrder, StepInsertItem, StepSelectRow, StepSelectItems, StepCommit, InUse;
    CallShape(cfg, s, c);
    match s.clients[c].pc
    case Insert => a := InserterCanStep(cfg, s, c);
    case Items(_, _) => a := BatchCanStep(cfg, s, c);
    case ReadRow(_) => a := SelectRow(c);
    case ReadItems(_, _) => a := SelectItems(c);
    case Commit(_, _) => a := CommitSucceeds(c);
    case Abort(_) => a := Rollback(c);
  }

  /** Whoever holds a key is never waiting for one, nor for a connection. */
  lemma HolderCanStep(cfg: Config, s: State, c: nat) returns (a: Action)
    requires Inv(cfg, s) && c < |s.clients| && s.clients[c].tx.Writes?
    ensures IsHelpful(a) && Next(cfg, s, a).Some?
  {
    assert ClientOk(cfg, s.db, c, s.clients[c]);
    if s.clients[c].tx.fate.Driven? {
      a := CallInTransactionCanStep(cfg, s, c);
    } else {
      a := ServerAborts(c);
    }
  }

  /** With a free connection, a call that has none can take it. */
  lemma OutsiderCanStep(cfg: Config, s: State, c: nat) returns (a: Action)
    requires Inv(cfg, s) && InUse(s.clients) < cfg.poolSize
    requires c < |s.clients| && !s.clients[c].pc.Done? && !HoldsConnection(s.clients[c])
    ensures IsHelpful(a) && Next(cfg, s, a).Some?
  {
    hide MakeOrderRow, MakeItemRow, ScanResult, AttachResult, View, TxOk, IsCut, WrittenByAuthor, StepPoolSelectRow,
      StepPoolSelectItems, InUse;
    assert ClientOk(cfg, s.db, c, s.clients[c]);
    if s.clients[c].op.Create? {
      a := Begin(c);
    } else if s.clients[c].pc.Start? {
      a := PoolSelectRow(c);
    } else {
      a := PoolSelectItems(c);
    }
  }

  lemma HelpfulStep(cfg: Config, s: State, c: nat) returns (a: Action)
    requires Inv(cfg, s) && cfg.poolSize >= 1
    requires c < |s.clients| && !Settled(s.clients[c])
    ensures IsHelpful(a) && Next(cfg, s, a).Some?
  {
    hide ClientOk;
    if h :| 0 <= h < |s.clients| && s.clients[h].tx.Writes? {
      a := HolderCanStep(cfg, s, h);
    } else if HoldsConnection(s.clients[c]) {
      a := CallInTransactionCanStep(cfg, s, c);
    } else if InUse(s.clients) == 0 {
      a := OutsiderCanStep(cfg, s, c);
    } else {
      var h := SomeWeight(s.clients, Connections);
      a := CallInTransactionCanStep(cfg, s, h);
    }
  }

  /** With a pool of any size, as long as some call is unfinished or some transaction unresolved,
      a step that is not a failure is possible. */
  lemma NoDeadlock(cfg: Config, s: State, c: nat)
    requires Reachable(cfg, s) && cfg.poolSize >= 1
    requires c < |s.clients| && !Settled(s.clients[c])
    ensures exists a :: IsHelpful(a) && Next(cfg, s, a).Some?
  {
    ReachableInv(cfg, s);
    var a := HelpfulStep(cfg, s, c);
  }

  predicate AllSettled(s: State) {
    forall c | 0 <= c < |s.clients| :: Settled(s.clients[c])
  }

  predicate AllHelpful(acts: seq<Action>) {
    forall i | 0 <= i < |acts| :: IsHelpful(acts[i])
  }

  /** Helpful steps alone lead to a state where every call has returned and every transaction is
      resolved. */
  lemma {:induction false} Finish(cfg: Config, s: State, done: seq<Action>, now: State)
    returns (acts: seq<Action>, t: State)
    requires Inv(cfg, now) && cfg.poolSize >= 1
    requires AllHelpful(done) && Run(cfg, s, done) == Some(now)
    ensures AllHelpful(acts) && Run(cfg, s, acts) == Some(t) && AllSettled(t)
    decreases Rank(now)
  {
    hide MakeItemRow, Next;
    if c :| 0 <= c < |now.clients| && !Settled(now.clients[c]) {
      var a := HelpfulStep(cfg, now, c);
      StepKeepsInv(cfg, now, a);
      StepLowersRank(cfg, now, a);
      assert (done + [a])[..|done|] == done;
      acts, t := Finish(cfg, s, done + [a], Next(cfg, now, a).value);
    } else {
      acts, t := done, now;
    }
  }
}
