/** The protocol refines the atomic create-or-get map, step by step and over whole runs. */
module Refinement {
  import opened Results
  import opened Bags
  import opened Money
  import opened Orders
  import opened Columns
  import opened Protocol
  import opened Invariant
  import opened Safety
  import opened Progress
  import opened Outcomes
  import opened OrderBook

  /** The book that the committed data stands for. */
  ghost function BookOf(db: Db): Book
    requires IndexOk(db)
  {
    map key | key in db.keyIndex :: View(db, db.keyIndex[key])
  }

  /** The instant at which a call takes effect is the step in which it returns. */
  function EventOf(s: State, a: Action, t: State): Event {
    if a.c >= |s.clients| || a.c >= |t.clients| then Silent
    else
      var before, after := s.clients[a.c], t.clients[a.c];
      if a.ServerCommits? then Landed(a.c, before.op)
      else if !before.pc.Done? && after.pc.Done? then Answered(a.c, before.op, after.pc.outcome)
      else Silent
  }

  // ----- what a commit does to the book

  lemma LoadedLinesMatch(cfg: Config, lines: seq<Line<string>>, orderId: Uuid, rows: seq<ItemRow>)
    requires StoresLines(cfg, lines, orderId, rows) && |rows| == |lines|
    ensures Bare(LoadedLines(rows)) == CastLines(cfg, lines)
    ensures forall i | 0 <= i < |lines| :: cfg.cast(lines[i].product).Some?
  {
    forall j | 0 <= j < |rows|
      ensures cfg.cast(lines[j].product).Some? && LoadedLine(rows[j]).line == CastLine(cfg, lines[j])
    {
      assert IsItemOf(cfg, lines[j], orderId, rows[j]);
    }
  }

  lemma SortedLines(rows: seq<ItemRow>, orderId: Uuid)
    requires DistinctIds(rows) && forall j | 0 <= j < |rows| :: rows[j].orderId == orderId
    ensures var lines := LoadedLines(SortById(rows));
            && multiset(Bare(lines)) == multiset(Bare(LoadedLines(rows)))
            && AscendingIds(lines)
            && forall i | 0 <= i < |lines| :: lines[i].orderId == orderId
  {
    var sorted := SortById(rows);
    SortIsAPermutation(rows);
    LoadingIgnoresOrder(sorted, rows);
    forall i | 0 <= i < |sorted| ensures sorted[i].orderId == orderId {
      assert sorted[i] in multiset(rows);
    }
    assert forall i | 0 <= i < |sorted| :: LoadedLines(sorted)[i] == LoadedLine(sorted[i]);
  }

  /** Completely written, an order loads as what was submitted. */
  lemma LoadedOrderFulfils(cfg: Config, d: Draft, row: OrderRow, items: seq<ItemRow>)
    requires IsRowOf(cfg, d, row)
    requires StoresLines(cfg, d.lines, row.id, items) && |items| == |d.lines|
    ensures Fulfils(cfg, d, Loaded(row, items))
  {
    assert DistinctIds(items);
    StoredLinesBelong(cfg, d.lines, row.id, items);
    LoadedLinesMatch(cfg, d.lines, row.id, items);
    SortedLines(items, row.id);
  }

  /** A commit of complete writes adds one entry, made of what the call submitted. */
  lemma CommitAdds(cfg: Config, s: State, c: nat)
    requires Inv(cfg, s) && c < |s.clients| && s.clients[c].op.Create? && s.clients[c].tx.Writes?
    requires |s.clients[c].tx.items| == |s.clients[c].op.draft.lines|
    ensures IndexOk(s.db) && IndexOk(Committed(s.db, c, s.clients[c].tx))
    ensures var tx := s.clients[c].tx;
            && Fulfils(cfg, s.clients[c].op.draft, Loaded(tx.row, tx.items))
            && Adds(BookOf(s.db), Loaded(tx.row, tx.items), BookOf(Committed(s.db, c, tx)))
  {
    hide MakeOrderRow, MakeItemRow, StoredKey, SortById, ItemsOf, LoadedLines, CreateOk, GetOk, WrittenByAuthor,
      Fulfils;
    var tx := s.clients[c].tx;
    var db' := Committed(s.db, c, tx);
    assert TxOk(cfg, s.clients[c]) && NotCommitted(s.db, tx);
    CommitGrows(cfg, s, c);
    CommittedItems(cfg, s, c, tx.row.id);
    LoadedOrderFulfils(cfg, s.clients[c].op.draft, tx.row, tx.items);
    assert BookOf(db') == BookOf(s.db)[tx.row.key := Loaded(tx.row, tx.items)];
  }

  // ----- one step

  /** A commit of writes, acknowledged, lost, or carried out by the server afterwards. */
  lemma WritingCommitRefines(cfg: Config, s: State, a: Action)
    requires Inv(cfg, s) && a.c < |s.clients| && s.clients[a.c].op.Create? && s.clients[a.c].tx.Writes?
    requires (a.CommitSucceeds? || a.CommitFails? || a.ServerCommits?) && NextOfCreate(cfg, s, a).Some?
    ensures var t := NextOfCreate(cfg, s, a).value;
            IndexOk(t.db) && Legal(cfg, BookOf(s.db), EventOf(s, a, t), BookOf(t.db))
  {
    hide MakeOrderRow, MakeItemRow, StoredKey, SortById, ItemsOf, LoadedLines, GetOk, WrittenByAuthor, Fulfils, Adds,
      BookOf, IndexOk, Committed, Total;
    var client := s.clients[a.c];
    assert ClientOk(cfg, s.db, a.c, client);
    CommitAdds(cfg, s, a.c);
  }

  /** A commit after a conflict: nothing is written. */
  lemma ReplayingCommitRefines(cfg: Config, s: State, a: Action)
    requires Inv(cfg, s) && a.c < |s.clients| && s.clients[a.c].op.Create? && s.clients[a.c].tx.NoWrites?
    requires (a.CommitSucceeds? || a.CommitFails? || a.ServerCommits?) && NextOfCreate(cfg, s, a).Some?
    ensures var t := NextOfCreate(cfg, s, a).value;
            t.db == s.db && Legal(cfg, BookOf(s.db), EventOf(s, a, t), BookOf(t.db))
  {
    hide WrittenByAuthor, TxOk, GetOk, Fulfils, StoredKey, Total;
    var client := s.clients[a.c];
    assert ClientOk(cfg, s.db, a.c, client);
    if a.CommitSucceeds? {
      TakenKey(cfg, s, client.op.draft.key);
      KeysFitOrChange(client.op.draft.key);
    }
  }

  lemma CommitRefines(cfg: Config, s: State, a: Action)
    requires Inv(cfg, s) && a.c < |s.clients| && s.clients[a.c].op.Create?
    requires (a.CommitSucceeds? || a.CommitFails? || a.ServerCommits?) && NextOfCreate(cfg, s, a).Some?
    ensures var t := NextOfCreate(cfg, s, a).value;
            IndexOk(t.db) && Legal(cfg, BookOf(s.db), EventOf(s, a, t), BookOf(t.db))
  {
    if s.clients[a.c].tx.Writes? { WritingCommitRefines(cfg, s, a); } else { ReplayingCommitRefines(cfg, s, a); }
  }

  lemma GetRefines(cfg: Config, s: State, a: Action)
    requires Inv(cfg, s) && a.c < |s.clients| && s.clients[a.c].op.Get?
    requires NextOfGet(cfg, s, a).Some?
    ensures var t := NextOfGet(cfg, s, a).value;
            t.db == s.db && Legal(cfg, BookOf(s.db), EventOf(s, a, t), BookOf(t.db))
  {
    hide Parse, NumericOut, AttachResult, SortById, ItemsOf, LoadedLines, CreateOk, WrittenByAuthor;
    var client := s.clients[a.c];
    assert ClientOk(cfg, s.db, a.c, client);
    if a.PoolSelectRow? {
      if id :| cfg.cast(client.op.id) == Some(id) && id in s.db.orders { RowsLoad(s.db.orders[id]); }
    } else if a.PoolSelectItems? {
      LinesLoad(VisibleItems(s.db, NoWrites, client.pc.head.id));
      assert s.db.items + OwnItems(NoWrites) == s.db.items;
    }
  }

  lemma InsertsAreSilent(cfg: Config, s: State, a: Action)
    requires a.c < |s.clients| && s.clients[a.c].op.Create? && (a.InsertOrder? || a.InsertItem?)
    requires NextOfCreate(cfg, s, a).Some?
    ensures var t := NextOfCreate(cfg, s, a).value;
            t.db == s.db && EventOf(s, a, t) == Silent
  {
    hide MakeOrderRow, MakeItemRow, ItemIdIsFresh, KeyIsHeld;
  }

  lemma SelectsAreSilent(cfg: Config, s: State, a: Action)
    requires a.c < |s.clients| && s.clients[a.c].op.Create? && (a.SelectRow? || a.SelectItems?)
    requires NextOfCreate(cfg, s, a).Some?
    ensures var t := NextOfCreate(cfg, s, a).value;
            t.db == s.db && EventOf(s, a, t) == Silent
  {
    hide AttachResult, VisibleItems;
  }

  lemma ErrorsChangeNothing(cfg: Config, s: State, a: Action)
    requires Inv(cfg, s) && a.c < |s.clients| && s.clients[a.c].op.Create?
    requires !(a.InsertOrder? || a.InsertItem? || a.SelectRow? || a.SelectItems?)
    requires !(a.CommitSucceeds? || a.CommitFails? || a.ServerCommits?) && NextOfCreate(cfg, s, a).Some?
    ensures var t := NextOfCreate(cfg, s, a).value;
            t.db == s.db && Legal(cfg, BookOf(s.db), EventOf(s, a, t), BookOf(t.db))
  {
    hide MakeOrderRow, MakeItemRow, ScanResult, SortById, ItemsOf, LoadedLines, View, BookOf, GetOk, WrittenByAuthor,
      Fulfils, Adds, Total;
    assert ClientOk(cfg, s.db, a.c, s.clients[a.c]);
  }

  lemma OtherStepsAreSilent(cfg: Config, s: State, a: Action)
    requires Inv(cfg, s) && a.c < |s.clients| && s.clients[a.c].op.Create?
    requires !(a.CommitSucceeds? || a.CommitFails? || a.ServerCommits?) && NextOfCreate(cfg, s, a).Some?
    ensures var t := NextOfCreate(cfg, s, a).value;
            t.db == s.db && Legal(cfg, BookOf(s.db), EventOf(s, a, t), BookOf(t.db))
  {
    hide Inv;
    if a.InsertOrder? || a.InsertItem? {
      InsertsAreSilent(cfg, s, a);
    } else if a.SelectRow? || a.SelectItems? {
      SelectsAreSilent(cfg, s, a);
    } else {
      ErrorsChangeNothing(cfg, s, a);
    }
  }

  /** Every step of the protocol is a step of the atomic map: the winner's commit adds the order, a
      replay and a read return an entry that is in the book, an error changes nothing or adds what
      was submitted, and everything else changes nothing. */
  lemma StepRefines(cfg: Config, s: State, a: Action)
    requires Inv(cfg, s) && Next(cfg, s, a).Some?
    ensures var t := Next(cfg, s, a).value;
            IndexOk(t.db) && Legal(cfg, BookOf(s.db), EventOf(s, a, t), BookOf(t.db))
  {
    hide NextOfCreate;
    if s.clients[a.c].op.Get? {
      GetRefines(cfg, s, a);
    } else if a.CommitSucceeds? || a.CommitFails? || a.ServerCommits? {
      CommitRefines(cfg, s, a);
    } else {
      OtherStepsAreSilent(cfg, s, a);
    }
  }

  // ----- whole runs

  function Events(cfg: Config, s: State, acts: seq<Action>): (events: seq<Event>)
    requires Run(cfg, s, acts).Some?
    ensures |events| == |acts|
  {
    if acts == [] then []
    else
      var front, a := acts[..|acts| - 1], acts[|acts| - 1];
      var before := Run(cfg, s, front).value;
      Events(cfg, s, front) + [EventOf(before, a, Next(cfg, before, a).value)]
  }

  lemma IndexStaysOk(cfg: Config, s: State, acts: seq<Action>)
    requires Init(s) && Run(cfg, s, acts).Some?
    ensures IndexOk(Run(cfg, s, acts).value.db)
  {
    hide Run;
    InitInv(cfg, s);
    RunKeepsInv(cfg, s, acts);
  }

  /** The books between the events of a run. */
  ghost function Books(cfg: Config, s: State, acts: seq<Action>): (books: seq<Book>)
    requires Init(s) && Run(cfg, s, acts).Some?
    ensures |books| == |acts| + 1
    ensures IndexOk(Run(cfg, s, acts).value.db) && books[|acts|] == BookOf(Run(cfg, s, acts).value.db)
  {
    IndexStaysOk(cfg, s, acts);
    var last := BookOf(Run(cfg, s, acts).value.db);
    if acts == [] then [last] else Books(cfg, s, acts[..|acts| - 1]) + [last]
  }

  /** Every interleaving, with crashes, rollbacks and lost acknowledgements anywhere, is a history
      of the atomic map that starts empty and ends with the committed orders. */
  lemma {:induction false} RunRefines(cfg: Config, s: State, acts: seq<Action>)
    requires Init(s) && Run(cfg, s, acts).Some?
    ensures History(cfg, Books(cfg, s, acts), Events(cfg, s, acts))
    ensures Books(cfg, s, acts)[0] == map[]
    ensures var t := Run(cfg, s, acts).value;
            IndexOk(t.db) && Books(cfg, s, acts)[|acts|] == BookOf(t.db)
  {
    hide Legal, EventOf, Next;
    if acts == [] {
      assert BookOf(s.db) == map[];
    } else {
      var front, a := acts[..|acts| - 1], acts[|acts| - 1];
      RunRefines(cfg, s, front);
      InitInv(cfg, s);
      RunKeepsInv(cfg, s, front);
      StepRefines(cfg, Run(cfg, s, front).value, a);
    }
  }

  // ----- one answer each

  lemma FinishedCallsAreSilent(cfg: Config, s: State, a: Action)
    requires Inv(cfg, s) && Next(cfg, s, a).Some?
    requires s.clients[a.c].pc.Done? || a.ServerCommits?
    ensures var t := Next(cfg, s, a).value;
            && |t.clients| == |s.clients|
            && s.clients[a.c].pc.Done? && t.clients[a.c].pc == s.clients[a.c].pc
            && !EventOf(s, a, t).Answered?
  {
    hide MakeOrderRow, MakeItemRow, ScanResult, AttachResult, SortById, ItemsOf, LoadedLines, WrittenByAuthor, Total;
    OnlyTheServerActsForFinishedCalls(cfg, s, a);
    assert a.ServerAborts? || a.ServerCommits?;
  }

  lemma OnlyTheServerActsForFinishedCalls(cfg: Config, s: State, a: Action)
    requires Inv(cfg, s) && Next(cfg, s, a).Some?
    requires s.clients[a.c].pc.Done? || a.ServerCommits?
    ensures s.clients[a.c].op.Create? && s.clients[a.c].pc.Done? && (a.ServerAborts? || a.ServerCommits?)
  {
    hide MakeOrderRow, MakeItemRow, ScanResult, AttachResult, SortById, ItemsOf, LoadedLines, View, WrittenByAuthor,
      Total, StepInsertOrder, StepInsertItem, StepSelectRow, StepSelectItems, StepCommit, StepCommitFails,
      StepConnectionLost;
    assert ClientOk(cfg, s.db, a.c, s.clients[a.c]);
  }

  lemma StepAnswers(cfg: Config, s: State, a: Action, c: nat)
    requires Inv(cfg, s) && Next(cfg, s, a).Some? && c < |s.clients|
    ensures var t := Next(cfg, s, a).value;
            var e := EventOf(s, a, t);
            && |t.clients| == |s.clients|
            && t.clients[c].op == s.clients[c].op
            && (if e.Answered? && e.call == c
                then !s.clients[c].pc.Done? && t.clients[c].pc == Done(e.outcome) && t.clients[c].op == e.op
                else t.clients[c].pc.Done? == s.clients[c].pc.Done?)
            && (s.clients[c].pc.Done? ==> t.clients[c].pc == s.clients[c].pc)
  {
    hide Next, Inv;
    StepLeavesOthers(cfg, s, a);
    if s.clients[a.c].pc.Done? || a.ServerCommits? { FinishedCallsAreSilent(cfg, s, a); }
  }

  /** A call that has returned was answered once in the run, with what it returned; a call that has
      not was not answered at all. */
  lemma {:induction false} AnsweredOnce(cfg: Config, s: State, acts: seq<Action>, c: nat)
    requires Init(s) && Run(cfg, s, acts).Some? && c < |s.clients|
    ensures var t, events := Run(cfg, s, acts).value, Events(cfg, s, acts);
            && |t.clients| == |s.clients|
            && Answers(events, c) == (if t.clients[c].pc.Done? then 1 else 0)
            && forall i | 0 <= i < |events| && events[i].Answered? && events[i].call == c ::
                 t.clients[c].pc == Done(events[i].outcome) && t.clients[c].op == events[i].op
  {
    hide Next, EventOf, Inv;
    if acts != [] {
      var front, a := acts[..|acts| - 1], acts[|acts| - 1];
      AnsweredOnce(cfg, s, front, c);
      InitInv(cfg, s);
      RunKeepsInv(cfg, s, front);
      StepAnswers(cfg, Run(cfg, s, front).value, a, c);
      var events := Events(cfg, s, acts);
      assert events[..|events| - 1] == Events(cfg, s, front);
    }
  }

  // ----- one effect each

  /** A step that changes the book ends everything its call can do. */
  lemma WritersSettle(cfg: Config, s: State, a: Action, t: State)
    requires Inv(cfg, s) && Next(cfg, s, a) == Some(t) && t.db != s.db
    ensures a.c < |t.clients| && Settled(t.clients[a.c])
  {
    hide MakeOrderRow, MakeItemRow, ScanResult, AttachResult, SortById, ItemsOf, LoadedLines, Inv, View,
      StepInsertOrder, StepInsertItem, StepSelectRow, StepSelectItems, StepPoolSelectRow, StepPoolSelectItems, Total,
      Committed;
    if s.clients[a.c].op.Get? {
      GetRefines(cfg, s, a);
    } else if a.InsertOrder? || a.InsertItem? {
      InsertsAreSilent(cfg, s, a);
    } else if a.SelectRow? || a.SelectItems? {
      SelectsAreSilent(cfg, s, a);
    } else if a.ServerCommits? {
      OnlyTheServerActsForFinishedCalls(cfg, s, a);
    }
  }

  /** A call without anything left to do takes no step. */
  lemma SettledCallsRest(cfg: Config, s: State, a: Action)
    requires Next(cfg, s, a).Some?
    ensures a.c < |s.clients| && !Settled(s.clients[a.c])
  {
    hide Next;
    StepIsLocal(cfg, s, a);
  }

  lemma {:induction false} PrefixesRun(cfg: Config, s: State, acts: seq<Action>, m: nat)
    requires Run(cfg, s, acts).Some? && m <= |acts|
    ensures Run(cfg, s, acts[..m]).Some?
    decreases |acts|
  {
    if m == |acts| {
      assert acts[..m] == acts;
    } else {
      var front := acts[..|acts| - 1];
      PrefixesRun(cfg, s, front, m);
      assert front[..m] == acts[..m];
    }
  }

  /** The books and events of a run begin as those of its prefixes do. */
  lemma {:induction false} PrefixOfRun(cfg: Config, s: State, acts: seq<Action>, m: nat)
    requires Init(s) && Run(cfg, s, acts).Some? && m <= |acts| && Run(cfg, s, acts[..m]).Some?
    ensures Events(cfg, s, acts)[..m] == Events(cfg, s, acts[..m])
    ensures Books(cfg, s, acts)[..m + 1] == Books(cfg, s, acts[..m])
    decreases |acts|
  {
    hide Next, EventOf, BookOf, Init;
    if m == |acts| {
      assert acts[..m] == acts;
    } else {
      var front := acts[..|acts| - 1];
      assert front[..m] == acts[..m];
      PrefixOfRun(cfg, s, front, m);
      assert Events(cfg, s, acts)[..m] == Events(cfg, s, front)[..m];
      assert Books(cfg, s, acts)[..m + 1] == Books(cfg, s, front)[..m + 1];
    }
  }

  lemma {:induction false} StepOfRun(cfg: Config, s: State, acts: seq<Action>, i: nat)
    requires Init(s) && Run(cfg, s, acts).Some? && i < |acts|
    ensures match Run(cfg, s, acts[..i])
            case None => false
            case Some(before) =>
              && Next(cfg, before, acts[i]).Some?
              && Run(cfg, s, acts[..i + 1]) == Next(cfg, before, acts[i])
              && Events(cfg, s, acts)[i] == EventOf(before, acts[i], Next(cfg, before, acts[i]).value)
  {
    hide Next;
    PrefixesRun(cfg, s, acts, i);
    PrefixesRun(cfg, s, acts, i + 1);
    PrefixOfRun(cfg, s, acts, i + 1);
    assert acts[..i + 1][..i] == acts[..i];
    assert Events(cfg, s, acts)[i] == Events(cfg, s, acts)[..i + 1][i];
  }

  lemma {:induction false} WritersStaySettled(cfg: Config, s: State, acts: seq<Action>, i: nat)
    requires Init(s) && Run(cfg, s, acts).Some? && i < |acts|
    requires Books(cfg, s, acts)[i] != Books(cfg, s, acts)[i + 1]
    ensures var t := Run(cfg, s, acts).value;
            acts[i].c < |t.clients| && Settled(t.clients[acts[i].c])
  {
    hide Next, Settled, ShortensOnly, Books, Events;
    var front, a := acts[..|acts| - 1], acts[|acts| - 1];
    var t := Run(cfg, s, front).value;
    PrefixesRun(cfg, s, acts, |front|);
    PrefixOfRun(cfg, s, acts, |front|);
    if i < |front| {
      WritersStaySettled(cfg, s, front, i);
      StepLeavesOthers(cfg, t, a);
      SettledCallsRest(cfg, t, a);
    } else {
      InitInv(cfg, s);
      RunKeepsInv(cfg, s, front);
      WritersSettle(cfg, t, a, Next(cfg, t, a).value);
    }
  }

  /** Two steps that change the book belong to different calls. */
  lemma {:induction false} WritersDiffer(cfg: Config, s: State, acts: seq<Action>, i: nat, j: nat)
    requires Init(s) && Run(cfg, s, acts).Some? && i < j < |acts|
    requires Books(cfg, s, acts)[i] != Books(cfg, s, acts)[i + 1]
    ensures acts[i].c != acts[j].c
  {
    hide Next;
    StepOfRun(cfg, s, acts, j);
    PrefixOfRun(cfg, s, acts, j);
    WritersStaySettled(cfg, s, acts[..j], i);
    SettledCallsRest(cfg, Run(cfg, s, acts[..j]).value, acts[j]);
  }

  lemma EventsNameTheirCall(s: State, a: Action, t: State)
    ensures EventOf(s, a, t).Silent? || EventOf(s, a, t).call == a.c
  {
  }

  /** An order appears after its call has returned only if the call was told of an error. */
  lemma LandedCallFailed(cfg: Config, s: State, a: Action, t: State)
    requires Inv(cfg, s) && Next(cfg, s, a) == Some(t) && EventOf(s, a, t).Landed?
    ensures s.clients[a.c].pc == Done(Failed(Unexpected))
    ensures EventOf(s, a, t) == Landed(a.c, s.clients[a.c].op)
  {
    hide View, TxOk, GetOk, WrittenByAuthor, Committed, Total;
    OnlyTheServerActsForFinishedCalls(cfg, s, a);
    assert ClientOk(cfg, s.db, a.c, s.clients[a.c]);
  }

  lemma {:induction false} LandedAfterFailure(cfg: Config, s: State, acts: seq<Action>, a: Action, t: State)
    requires Init(s) && Run(cfg, s, acts).Some? && Next(cfg, Run(cfg, s, acts).value, a) == Some(t)
    requires EventOf(Run(cfg, s, acts).value, a, t).Landed?
    ensures var e, events := EventOf(Run(cfg, s, acts).value, a, t), Events(cfg, s, acts);
            exists i :: 0 <= i < |events| && events[i] == Answered(e.call, e.op, Failed(Unexpected))
  {
    hide Next;
    var before := Run(cfg, s, acts).value;
    InitInv(cfg, s);
    RunKeepsInv(cfg, s, acts);
    LandedCallFailed(cfg, before, a, t);
    StepIsLocal(cfg, before, a);
    RunKeepsCalls(cfg, s, acts);
    AnsweredOnce(cfg, s, acts, a.c);
    var i := SomeAnswer(Events(cfg, s, acts), a.c);
  }

  /** No call acts twice, and one that acts after its return was told of an error: whatever happens
      to the acknowledgement, a Create is one atomic create at most. */
  lemma {:induction false} CallsActOnce(cfg: Config, s: State, acts: seq<Action>)
    requires Init(s) && Run(cfg, s, acts).Some?
    ensures |Books(cfg, s, acts)| == |Events(cfg, s, acts)| + 1
    ensures ActsOnce(Books(cfg, s, acts), Events(cfg, s, acts))
  {
    hide Next, History, Books, Events, Run;
    RunRefines(cfg, s, acts);
    var books, events := Books(cfg, s, acts), Events(cfg, s, acts);
    HistoryShape(cfg, books, events);
    forall i | 0 <= i < |acts| ensures events[i].Silent? || events[i].call == acts[i].c {
      StepOfRun(cfg, s, acts, i);
      EventsNameTheirCall(Run(cfg, s, acts[..i]).value, acts[i], Run(cfg, s, acts[..i + 1]).value);
    }
    forall i, j | 0 <= i < j < |acts| && books[i] != books[i + 1] && books[j] != books[j + 1]
      ensures acts[i].c != acts[j].c
    {
      WritersDiffer(cfg, s, acts, i, j);
    }
    forall j | 0 <= j < |acts| && events[j].Landed?
      ensures exists i :: 0 <= i < j && events[i] == Answered(events[j].call, events[j].op, Failed(Unexpected))
    {
      StepOfRun(cfg, s, acts, j);
      PrefixOfRun(cfg, s, acts, j);
      LandedAfterFailure(cfg, s, acts[..j], acts[j], Run(cfg, s, acts[..j + 1]).value);
    }
  }
}
