/** When a call succeeds, and what is to blame when it fails: a table that refuses what was submitted,
    a fault in one of the call's own statements, or a key that the column cut. */
module Outcomes {
  import opened Results
  import opened Money
  import opened Orders
  import opened Columns
  import opened Protocol
  import opened Invariant
  import opened Safety
  import opened Progress

  // ----- what the tables admit

  /** Casts and constraints do not depend on the id or the time of a row. */
  predicate OrderIsAdmitted(cfg: Config, d: Draft) {
    MakeOrderRow(cfg, d, 0, 0).Some?
  }

  predicate LinesAreAdmitted(cfg: Config, lines: seq<Line<string>>, count: nat) {
    count <= |lines| && forall i | 0 <= i < count :: MakeItemRow(cfg, lines[i], 0, 0).Some?
  }

  /** The database takes the input of this call. */
  predicate IsAdmitted(cfg: Config, op: Op) {
    match op
    case Create(d) => OrderIsAdmitted(cfg, d) && LinesAreAdmitted(cfg, d.lines, |d.lines|)
    case Get(id) => cfg.cast(id).Some?
  }

  lemma AdmissionIgnoresIds(cfg: Config, d: Draft, l: Line<string>, orderId: Uuid, id: Uuid, now: int)
    ensures MakeOrderRow(cfg, d, id, now).Some? <==> OrderIsAdmitted(cfg, d)
    ensures MakeItemRow(cfg, l, orderId, id).Some? <==> MakeItemRow(cfg, l, 0, 0).Some?
  {
  }

  /** What the tables ask of a draft, said of the draft alone. */
  lemma AdmissionIsExact(cfg: Config, d: Draft)
    ensures IsAdmitted(cfg, Create(d)) <==>
              && cfg.cast(d.user).Some? && 0 < d.total <= 9_999_999_999
              && (forall i | 255 <= i < |d.key| :: d.key[i] == ' ')
              && (forall l | l in d.lines ::
                    cfg.cast(l.product).Some? && 0 < l.quantity <= 2_147_483_647 && 0 <= l.price <= 9_999_999_999)
  {
    hide MakeOrderRow, MakeItemRow;
    AdmittedOrderRows(cfg, d, 0, 0);
    forall i | 0 <= i < |d.lines|
      ensures MakeItemRow(cfg, d.lines[i], 0, 0).Some? <==>
                && cfg.cast(d.lines[i].product).Some?
                && 0 < d.lines[i].quantity <= 2_147_483_647 && 0 <= d.lines[i].price <= 9_999_999_999
    {
      AdmittedItemRows(cfg, d.lines[i], 0, 0);
    }
  }

  /** A draft that both tables take as it is. */
  predicate FitsTheTables(cfg: Config, d: Draft) {
    && cfg.cast(d.user).Some? && 0 < d.total <= 9_999_999_999 && |d.key| <= 255
    && (forall l | l in d.lines ::
          cfg.cast(l.product).Some? && 0 < l.quantity <= 2_147_483_647 && 0 <= l.price <= 9_999_999_999)
  }

  // ----- success is earned

  /** Where a call stands tells what the tables have admitted so far. */
  predicate HasPassed(cfg: Config, client: Client) {
    match client.op
    case Get(id) =>
      client.pc.GetItems? || (client.pc.Done? && client.pc.outcome != Failed(Unexpected)) ==> cfg.cast(id).Some?
    case Create(d) =>
      match client.pc
      case Items(_, next) => OrderIsAdmitted(cfg, d) && LinesAreAdmitted(cfg, d.lines, next)
      case ReadRow(None) | ReadItems(false, _) | Commit(false, _) | Done(Replayed(_)) => OrderIsAdmitted(cfg, d)
      case ReadRow(Some(_)) | ReadItems(true, _) | Commit(true, _) | Done(Created(_)) => IsAdmitted(cfg, client.op)
      case _ => true
  }

  lemma StepPasses(cfg: Config, s: State, a: Action)
    requires Next(cfg, s, a).Some? && HasPassed(cfg, s.clients[a.c])
    ensures a.c < |Next(cfg, s, a).value.clients| && HasPassed(cfg, Next(cfg, s, a).value.clients[a.c])
  {
    hide MakeOrderRow, MakeItemRow, ScanResult, AttachResult, VisibleById, VisibleByKey, VisibleItems, InUse,
      OrderIdIsFresh, ItemIdIsFresh, KeyIsHeld;
    var client := s.clients[a.c];
    if a.InsertOrder? && client.op.Create? {
      AdmissionIgnoresIds(cfg, client.op.draft, Line("", 0, 0), 0, a.id, a.now);
    } else if a.InsertItem? && client.op.Create? && client.pc.Items? && client.pc.next < |client.op.draft.lines| {
      AdmissionIgnoresIds(cfg, client.op.draft, client.op.draft.lines[client.pc.next], client.pc.id, a.id, 0);
    }
  }

  /** A step of one call leaves the others as they are. */
  lemma StepLeavesOthers(cfg: Config, s: State, a: Action)
    requires Next(cfg, s, a).Some?
    ensures var t := Next(cfg, s, a).value;
            && a.c < |s.clients| == |t.clients|
            && t.clients[a.c].op == s.clients[a.c].op
            && forall i | 0 <= i < |s.clients| && i != a.c :: t.clients[i] == s.clients[i]
  {
    StepIsLocal(cfg, s, a);
  }

  /** A run keeps the calls and what they were asked to do. */
  predicate SameCalls(s: State, t: State) {
    |t.clients| == |s.clients| && forall i | 0 <= i < |s.clients| :: t.clients[i].op == s.clients[i].op
  }

  lemma {:induction false} RunKeepsCalls(cfg: Config, s: State, acts: seq<Action>)
    requires Run(cfg, s, acts).Some?
    ensures SameCalls(s, Run(cfg, s, acts).value)
  {
    if acts != [] {
      var front := acts[..|acts| - 1];
      RunKeepsCalls(cfg, s, front);
      StepLeavesOthers(cfg, Run(cfg, s, front).value, acts[|acts| - 1]);
    }
  }

  lemma {:induction false} RunPasses(cfg: Config, s: State, acts: seq<Action>, c: nat)
    requires Run(cfg, s, acts).Some? && c < |s.clients| && HasPassed(cfg, s.clients[c])
    ensures var t := Run(cfg, s, acts).value;
            c < |t.clients| && HasPassed(cfg, t.clients[c])
  {
    hide HasPassed;
    if acts != [] {
      var front, a := acts[..|acts| - 1], acts[|acts| - 1];
      RunPasses(cfg, s, front, c);
      var t := Run(cfg, s, front).value;
      StepLeavesOthers(cfg, t, a);
      if a.c == c { StepPasses(cfg, t, a); }
    }
  }

  predicate Succeeded(client: Client) {
    client.pc.Done? && !client.pc.outcome.Failed?
  }

  /** What a table refuses is never reported as stored: created = true needs an order and lines that
      the tables admit, and a replay still needs an order row that is admitted. A read needs an id. */
  lemma SuccessIsAdmitted(cfg: Config, s: State, c: nat)
    requires Reachable(cfg, s) && c < |s.clients| && Succeeded(s.clients[c])
    ensures var client := s.clients[c];
            match client.op
            case Get(_) => IsAdmitted(cfg, client.op)
            case Create(d) =>
              && OrderIsAdmitted(cfg, d)
              && (client.pc.outcome.Created? ==> IsAdmitted(cfg, client.op))
              && (client.pc.outcome.Replayed? ==> |d.key| <= 255)
  {
    hide OrderIsAdmitted, Inv, Run;
    var init, acts :| Init(init) && Run(cfg, init, acts) == Some(s);
    RunKeepsCalls(cfg, init, acts);
    RunPasses(cfg, init, acts, c);
    ReachableInv(cfg, s);
    SuccessesFitTheOp(cfg, s, c);
  }

  lemma SuccessesFitTheOp(cfg: Config, s: State, c: nat)
    requires Inv(cfg, s) && c < |s.clients| && Succeeded(s.clients[c])
    ensures var client := s.clients[c];
            if client.op.Get? then client.pc.outcome.Found?
            else
              && (client.pc.outcome.Created? || client.pc.outcome.Replayed?)
              && (client.pc.outcome.Replayed? ==> |client.op.draft.key| <= 255)
  {
    assert ClientOk(cfg, s.db, c, s.clients[c]);
    if s.clients[c].op.Create? && s.clients[c].pc.outcome.Replayed? { TakenKey(cfg, s, s.clients[c].op.draft.key); }
  }

  // ----- failure has a cause

  /** The only error without a fault of the call's own: the order does not exist, for a Create because
      its column cut the key. */
  predicate IsMissing(op: Op, error: Error) {
    error == OrderNotFound && (op.Create? ==> IsCut(op.draft.key))
  }

  /** The call has not failed so far, and the tables will not make it fail. */
  predicate OnTrack(cfg: Config, client: Client) {
    && IsAdmitted(cfg, client.op)
    && (client.pc.Abort? ==> IsMissing(client.op, client.pc.error))
    && (client.pc.Done? && client.pc.outcome.Failed? ==> IsMissing(client.op, client.pc.outcome.error))
  }

  lemma InsertStaysOnTrack(cfg: Config, s: State, a: Action, t: State)
    requires a.c < |s.clients| && s.clients[a.c].op.Create? && NextOfCreate(cfg, s, a) == Some(t) && a.c < |t.clients|
    requires (a.InsertOrder? || a.InsertItem?) && OnTrack(cfg, s.clients[a.c])
    ensures OnTrack(cfg, t.clients[a.c])
  {
    hide MakeOrderRow, MakeItemRow, InUse, ItemIdIsFresh, KeyIsHeld;
    var d := s.clients[a.c].op.draft;
    if a.InsertOrder? {
      AdmissionIgnoresIds(cfg, d, Line("", 0, 0), 0, a.id, a.now);
    } else {
      assert s.clients[a.c].pc.Items? && s.clients[a.c].pc.next < |d.lines|;
      AdmissionIgnoresIds(cfg, d, d.lines[s.clients[a.c].pc.next], s.clients[a.c].pc.id, a.id, 0);
    }
  }

  lemma SelectStaysOnTrack(cfg: Config, s: State, a: Action, t: State)
    requires Inv(cfg, s) && a.c < |s.clients| && s.clients[a.c].op.Create? && NextOfCreate(cfg, s, a) == Some(t)
    requires a.c < |t.clients| && (a.SelectRow? || a.SelectItems?) && OnTrack(cfg, s.clients[a.c])
    ensures OnTrack(cfg, t.clients[a.c])
  {
    hide IsAdmitted, IsCut, GetOk, WrittenByAuthor, Parse, NumericOut, AttachResult, VisibleById, VisibleByKey,
      VisibleItems, InUse;
    var client := s.clients[a.c];
    if a.SelectRow? {
      SelectedRow(cfg, s, a.c);
      if client.pc.won.Some? {
        assert ClientOk(cfg, s.db, a.c, client);
        RowsLoad(client.tx.row);
      } else if !IsCut(client.op.draft.key) {
        RowsLoad(s.db.orders[s.db.keyIndex[client.op.draft.key]]);
      }
    } else {
      LinesLoad(VisibleItems(s.db, client.tx, client.pc.head.id));
    }
  }

  lemma ReadStaysOnTrack(cfg: Config, s: State, a: Action, t: State)
    requires a.c < |s.clients| && s.clients[a.c].op.Get? && NextOfGet(cfg, s, a) == Some(t) && a.c < |t.clients|
    requires IsHelpful(a) && OnTrack(cfg, s.clients[a.c])
    ensures OnTrack(cfg, t.clients[a.c])
  {
    hide InUse;
    var client := s.clients[a.c];
    if a.PoolSelectRow? {
      if cfg.cast(client.op.id).value in s.db.orders { RowsLoad(s.db.orders[cfg.cast(client.op.id).value]); }
    } else if a.PoolSelectItems? {
      LinesLoad(VisibleItems(s.db, NoWrites, client.pc.head.id));
    }
  }

  lemma OtherStepsStayOnTrack(cfg: Config, s: State, a: Action, t: State)
    requires a.c < |s.clients| && s.clients[a.c].op.Create? && NextOfCreate(cfg, s, a) == Some(t) && a.c < |t.clients|
    requires !(a.InsertOrder? || a.InsertItem? || a.SelectRow? || a.SelectItems?)
    requires IsHelpful(a) && OnTrack(cfg, s.clients[a.c])
    ensures OnTrack(cfg, t.clients[a.c])
  {
    hide InUse;
  }

  lemma StepStaysOnTrack(cfg: Config, s: State, a: Action, t: State)
    requires Inv(cfg, s) && Next(cfg, s, a) == Some(t) && a.c < |t.clients|
    requires IsHelpful(a) && OnTrack(cfg, s.clients[a.c])
    ensures OnTrack(cfg, t.clients[a.c])
  {
    hide OnTrack;
    if s.clients[a.c].op.Get? {
      ReadStaysOnTrack(cfg, s, a, t);
    } else if a.InsertOrder? || a.InsertItem? {
      InsertStaysOnTrack(cfg, s, a, t);
    } else if a.SelectRow? || a.SelectItems? {
      SelectStaysOnTrack(cfg, s, a, t);
    } else {
      OtherStepsStayOnTrack(cfg, s, a, t);
    }
  }

  /** None of the call's own steps is a failure, whatever happens to the other calls. */
  predicate IsUnharmed(acts: seq<Action>, c: nat) {
    forall i | 0 <= i < |acts| && acts[i].c == c :: IsHelpful(acts[i])
  }

  lemma {:induction false} RunStaysOnTrack(cfg: Config, s: State, acts: seq<Action>, c: nat)
    requires Inv(cfg, s) && Run(cfg, s, acts).Some? && c < |s.clients|
    requires OnTrack(cfg, s.clients[c]) && IsUnharmed(acts, c)
    ensures var t := Run(cfg, s, acts).value;
            c < |t.clients| && OnTrack(cfg, t.clients[c])
  {
    hide Next;
    if acts != [] {
      var front, a := acts[..|acts| - 1], acts[|acts| - 1];
      RunStaysOnTrack(cfg, s, front, c);
      RunKeepsInv(cfg, s, front);
      var t := Run(cfg, s, front).value;
      StepLeavesOthers(cfg, t, a);
      if a.c == c { StepStaysOnTrack(cfg, t, a, Next(cfg, t, a).value); }
    }
  }

  lemma KnownErrors(cfg: Config, s: State, c: nat)
    requires Inv(cfg, s) && c < |s.clients| && s.clients[c].pc.Done? && s.clients[c].pc.outcome.Failed?
    ensures s.clients[c].pc.outcome.error == Unexpected || IsMissing(s.clients[c].op, s.clients[c].pc.outcome.error)
  {
    assert ClientOk(cfg, s.db, c, s.clients[c]);
  }

  /** The errors a call can end with. `Unexpected` means that the database refused what the call
      submitted, or that one of the call's own statements failed: neither money that is read back nor
      the crash of another call can cause it. A Create reports a missing order only for a key that its
      column has cut. */
  lemma FailuresAreExplained(cfg: Config, s: State, acts: seq<Action>, t: State, c: nat)
    requires Init(s) && Run(cfg, s, acts) == Some(t) && c < |t.clients|
    requires t.clients[c].pc.Done? && t.clients[c].pc.outcome.Failed?
    ensures var op, error := t.clients[c].op, t.clients[c].pc.outcome.error;
            && (error == Unexpected || error == OrderNotFound)
            && (op.Create? && error == OrderNotFound ==> IsCut(op.draft.key))
            && (error == Unexpected ==>
                  !IsAdmitted(cfg, op) || exists i :: 0 <= i < |acts| && acts[i].c == c && !IsHelpful(acts[i]))
  {
    hide Inv, Run;
    InitInv(cfg, s);
    RunKeepsInv(cfg, s, acts);
    RunKeepsCalls(cfg, s, acts);
    KnownErrors(cfg, t, c);
    if IsAdmitted(cfg, t.clients[c].op) && IsUnharmed(acts, c) { RunStaysOnTrack(cfg, s, acts, c); }
  }

  /** A Create that fits the tables fails only if one of its own statements does. */
  lemma UnharmedCallsSucceed(cfg: Config, s: State, acts: seq<Action>, t: State, c: nat)
    requires Init(s) && Run(cfg, s, acts) == Some(t) && c < |t.clients|
    requires t.clients[c].op.Create? && FitsTheTables(cfg, t.clients[c].op.draft) && IsUnharmed(acts, c)
    ensures t.clients[c].pc.Done? ==> Succeeded(t.clients[c])
  {
    hide OrderIsAdmitted, LinesAreAdmitted, Run;
    var d := t.clients[c].op.draft;
    AdmissionIsExact(cfg, d);
    KeysFitOrChange(d.key);
    if t.clients[c].pc.Done? && t.clients[c].pc.outcome.Failed? { FailuresAreExplained(cfg, s, acts, t, c); }
  }

  predicate HasFailed(client: Client) {
    client.pc.Abort? || (client.pc.Done? && client.pc.outcome.Failed?)
  }

  /** Every call of `s` that had not failed there has an answer in `t`: a Create that fits the tables has
      succeeded, and a read of a uuid has found its order or learned that there is none. */
  predicate FittingCallsAreServed(cfg: Config, s: State, t: State)
    requires SameCalls(s, t)
  {
    forall c | 0 <= c < |s.clients| && !HasFailed(s.clients[c]) ::
      match s.clients[c].op
      case Create(d) => FitsTheTables(cfg, d) ==> Succeeded(t.clients[c])
      case Get(id) => cfg.cast(id).Some? ==>
                        Succeeded(t.clients[c]) || t.clients[c].pc == Done(Failed(OrderNotFound))
  }

  lemma FittingCallsAreOnTrack(cfg: Config, client: Client)
    requires !HasFailed(client)
    requires match client.op case Create(d) => FitsTheTables(cfg, d) case Get(id) => cfg.cast(id).Some?
    ensures OnTrack(cfg, client)
  {
    hide OrderIsAdmitted, LinesAreAdmitted;
    if client.op.Create? { AdmissionIsExact(cfg, client.op.draft); }
  }

  /** A fitting call that stayed on track has been served when it is over. */
  lemma OnTrackMeansServed(cfg: Config, client: Client)
    requires OnTrack(cfg, client) && client.pc.Done?
    ensures match client.op
            case Create(d) => FitsTheTables(cfg, d) ==> Succeeded(client)
            case Get(id) => Succeeded(client) || client.pc == Done(Failed(OrderNotFound))
  {
    hide IsAdmitted;
    if client.op.Create? { KeysFitOrChange(client.op.draft.key); }
  }

  /** Steps that are not failures lead from every reachable state to one where every transaction is
      resolved and every call has returned, and every call is served that was not failing already and
      asked for nothing that the tables refuse. */
  lemma EveryCallCanFinish(cfg: Config, s: State)
    requires Reachable(cfg, s) && cfg.poolSize >= 1
    ensures exists acts, t ::
              && AllHelpful(acts) && Run(cfg, s, acts) == Some(t) && AllSettled(t)
              && SameCalls(s, t) && FittingCallsAreServed(cfg, s, t)
  {
    hide IsAdmitted, Inv, Next, Reachable, FitsTheTables, HasFailed, OnTrack;
    ReachableInv(cfg, s);
    var acts, t := Finish(cfg, s, [], s);
    RunKeepsCalls(cfg, s, acts);
    forall c | 0 <= c < |s.clients| && !HasFailed(s.clients[c])
      ensures match s.clients[c].op
              case Create(d) => FitsTheTables(cfg, d) ==> Succeeded(t.clients[c])
              case Get(id) => cfg.cast(id).Some? ==>
                                Succeeded(t.clients[c]) || t.clients[c].pc == Done(Failed(OrderNotFound))
    {
      assert Settled(t.clients[c]);
      if match s.clients[c].op case Create(d) => FitsTheTables(cfg, d) case Get(id) => cfg.cast(id).Some? {
        FittingCallsAreOnTrack(cfg, s.clients[c]);
        RunStaysOnTrack(cfg, s, acts, c);
        OnTrackMeansServed(cfg, t.clients[c]);
      }
    }
  }
}
