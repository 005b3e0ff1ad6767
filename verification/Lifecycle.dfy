/** The life of the order service once its pool is open: the goroutine that serves HTTP, the channel
    on which it reports, the select that waits for the end, the drain, and the deferred close of the
    pool. */
module Lifecycle {
  import opened Results

  /** The goroutine of httpserver.Start. */
  datatype Serve = Listening | Reporting | Closing | Exited

  /** A buffered channel of errors. Receiving from it when it is closed and empty gives nil. */
  datatype Channel = Channel(sent: nat, closed: bool)

  const CAPACITY: nat := 1

  datatype Exit = Clean | ServeError(receivedNil: bool) | DrainError

  /** The goroutine of app.Run. */
  datatype Main = Selecting | Draining | Returned(exit: Exit)

  datatype State = State(
    serve: Serve,
    notify: Channel,
    main: Main,
    signalled: bool,
    conns: nat,       // open connections
    inFlight: nat,    // those on which a request is being handled
    poolOpen: bool)

  datatype Action =
    | Signal                // SIGINT or SIGTERM cancels the context
    | Connect               // the listener accepts a connection
    | Arrive                // a request arrives on an open connection
    | Finish                // a request is answered
    | HangUp                // an idle connection ends
    | ServeFails            // ListenAndServe returns a fatal error
    | ServeEnds             // ListenAndServe returns ErrServerClosed
    | Send                  // s.notify <- err
    | CloseChannel          // close(s.notify)
    | TakeSignal            // the select picks ctx.Done()
    | TakeNotify            // the select picks server.Notify()
    | DrainCompletes        // server.Shutdown returns nil
    | DrainTimesOut         // server.Shutdown returns an error
    | ClosePool             // the deferred pg.Close()

  /** Shutdown has been called, as opposed to a return without it. */
  predicate ShutdownCalled(s: State) {
    s.main.Draining? || (s.main.Returned? && !s.main.exit.ServeError?)
  }

  predicate Enabled(s: State, a: Action) {
    match a
    case Signal => !s.signalled
    case Connect => s.serve.Listening? && !ShutdownCalled(s)
    case Arrive => s.inFlight < s.conns
    case Finish => s.inFlight > 0
    case HangUp => s.inFlight < s.conns
    case ServeFails => s.serve.Listening? && !ShutdownCalled(s)
    case ServeEnds => s.serve.Listening? && ShutdownCalled(s)
    case Send => s.serve.Reporting? && s.notify.sent < CAPACITY
    case CloseChannel => s.serve.Closing?
    case TakeSignal => s.main.Selecting? && s.signalled
    case TakeNotify => s.main.Selecting? && (s.notify.sent > 0 || s.notify.closed)
    case DrainCompletes => s.main.Draining? && s.conns == 0
    case DrainTimesOut => s.main.Draining?
    case ClosePool => s.main.Returned? && s.poolOpen
  }

  function Step(s: State, a: Action): State
    requires Enabled(s, a)
  {
    match a
    case Signal => s.(signalled := true)
    case Connect => s.(conns := s.conns + 1)
    case Arrive => s.(inFlight := s.inFlight + 1)
    case Finish => s.(inFlight := s.inFlight - 1)
    case HangUp => s.(conns := s.conns - 1)
    case ServeFails => s.(serve := Reporting)
    case ServeEnds => s.(serve := Closing)
    case Send => s.(serve := Closing, notify := s.notify.(sent := s.notify.sent + 1))
    case CloseChannel => s.(serve := Exited, notify := s.notify.(closed := true))
    case TakeSignal => s.(main := Draining)
    case TakeNotify =>
      if s.notify.sent > 0
      then s.(main := Returned(ServeError(false)), notify := s.notify.(sent := s.notify.sent - 1))
      else s.(main := Returned(ServeError(true)))
    case DrainCompletes => s.(main := Returned(Clean))
    case DrainTimesOut => s.(main := Returned(DrainError))
    case ClosePool => s.(poolOpen := false)
  }

  function Run(s: State, acts: seq<Action>): Option<State> {
    if acts == [] then Some(s)
    else
      match Run(s, acts[..|acts| - 1])
      case None => None
      case Some(t) => if Enabled(t, acts[|acts| - 1]) then Some(Step(t, acts[|acts| - 1])) else None
  }

  /** The server has just been started, on a pool that is open. */
  const STARTED := State(Listening, Channel(0, false), Selecting, false, 0, 0, true)

  ghost predicate Reachable(s: State) {
    exists acts :: Run(STARTED, acts) == Some(s)
  }

  // ----- the invariant

  /** What the goroutine has put into the channel, and what the select has learned from it. */
  predicate Inv(s: State) {
    && (s.notify.closed <==> s.serve.Exited?)
    && (s.serve.Listening? || s.serve.Reporting? ==> s.notify.sent == 0)
    && s.notify.sent <= 1
    && ((s.serve.Closing? || s.serve.Exited?) && s.main.Selecting? ==> s.notify.sent == 1)
    && (s.main.Returned? && s.main.exit.ServeError? ==> !s.main.exit.receivedNil && !s.serve.Listening?)
    && s.inFlight <= s.conns
    && (s.main == Returned(Clean) ==> s.conns == 0)
    && (!s.poolOpen ==> s.main.Returned?)
  }

  lemma StartedInv()
    ensures Inv(STARTED)
  {
  }

  lemma StepKeepsInv(s: State, a: Action)
    requires Inv(s) && Enabled(s, a)
    ensures Inv(Step(s, a))
  {
  }

  lemma {:induction false} RunKeepsInv(acts: seq<Action>)
    requires Run(STARTED, acts).Some?
    ensures Inv(Run(STARTED, acts).value)
  {
    if acts == [] {
      StartedInv();
    } else {
      RunKeepsInv(acts[..|acts| - 1]);
      StepKeepsInv(Run(STARTED, acts[..|acts| - 1]).value, acts[|acts| - 1]);
    }
  }

  lemma ReachableInv(s: State)
    requires Reachable(s)
    ensures Inv(s)
  {
    var acts :| Run(STARTED, acts) == Some(s);
    RunKeepsInv(acts);
  }

  // ----- what follows

  /** Whatever the select does, the goroutine can always go on with its report and its close: it
      never waits for a receiver. */
  lemma TheServeGoroutineNeverBlocks(s: State)
    requires Reachable(s) && (s.serve.Reporting? || s.serve.Closing?)
    ensures Enabled(s, if s.serve.Reporting? then Send else CloseChannel)
  {
    ReachableInv(s);
  }

  /** The notify branch of the select always receives a real error: a channel that was closed by a
      normal end is only seen after the select. */
  lemma NotifyDeliversAnError(s: State)
    requires Reachable(s) && Enabled(s, TakeNotify)
    ensures Step(s, TakeNotify).main == Returned(ServeError(false))
  {
    ReachableInv(s);
  }

  /** Once the service has returned without an open connection, none comes back, and with it no
      request. */
  lemma {:induction false} NothingComesBack(s: State, later: seq<Action>)
    requires Inv(s) && s.main.Returned? && s.conns == 0 && Run(s, later).Some?
    ensures var t := Run(s, later).value;
            Inv(t) && t.main == s.main && t.conns == t.inFlight == 0
  {
    if later != [] {
      NothingComesBack(s, later[..|later| - 1]);
      StepKeepsInv(Run(s, later[..|later| - 1]).value, later[|later| - 1]);
    }
  }

  /** A clean exit means that every request was finished when the shutdown returned, those included
      that arrived during the drain, and that none starts afterwards: the pool was open for all. */
  lemma CleanExitIsDrained(acts: seq<Action>, later: seq<Action>)
    requires Run(STARTED, acts).Some? && Run(STARTED, acts).value.main == Returned(Clean)
    requires Run(Run(STARTED, acts).value, later).Some?
    ensures Run(STARTED, acts).value.inFlight == 0
    ensures Run(Run(STARTED, acts).value, later).value.inFlight == 0
    ensures Run(Run(STARTED, acts).value, later).value.main == Returned(Clean)
  {
    RunKeepsInv(acts);
    NothingComesBack(Run(STARTED, acts).value, later);
  }

  // ----- the two branches that return an error

  predicate IsErrorExit(a: Action) {
    a.TakeNotify? || a.DrainTimesOut?
  }

  /** A request is being handled although the pool is closed. */
  predicate Abandoned(s: State) {
    !s.poolOpen && s.inFlight > 0
  }

  ghost predicate CanAbandon(s: State) {
    exists later :: Run(s, later).Some? && Abandoned(Run(s, later).value)
  }

  /** Every step of a run from the start is taken where `p` allows it. */
  ghost predicate AtEachStep(acts: seq<Action>, p: (State, Action) -> bool) {
    forall i | 0 <= i < |acts| && Run(STARTED, acts[..i]).Some? :: p(Run(STARTED, acts[..i]).value, acts[i])
  }

  /** An error exit finds no open connection. */
  predicate LeavesNoConnection(s: State, a: Action) {
    IsErrorExit(a) ==> s.conns == 0
  }

  /** An error exit finds no request in flight, and none arrives after the return. */
  predicate LeavesNoRequest(s: State, a: Action) {
    (IsErrorExit(a) ==> s.inFlight == 0) && (s.main.Returned? ==> !a.Arrive?)
  }

  /** In-flight requests have a working pool in every run whose error exits, if there are any, find
      no open connection, or find no request while none comes later. */
  lemma {:induction false} IdleExitsKeepThePool(acts: seq<Action>)
    requires Run(STARTED, acts).Some?
    requires AtEachStep(acts, LeavesNoConnection) || AtEachStep(acts, LeavesNoRequest)
    ensures !Abandoned(Run(STARTED, acts).value)
  {
    RunKeepsInv(acts);
    if AtEachStep(acts, LeavesNoConnection) { ConnectionsStayGone(acts); } else { RequestsStayGone(acts); }
  }

  lemma AtEachEarlierStep(acts: seq<Action>, p: (State, Action) -> bool)
    requires AtEachStep(acts, p) && acts != []
    ensures AtEachStep(acts[..|acts| - 1], p)
  {
    var front := acts[..|acts| - 1];
    forall i | 0 <= i < |front| ensures front[..i] == acts[..i] && front[i] == acts[i] {}
  }

  lemma {:induction false} ConnectionsStayGone(acts: seq<Action>)
    requires Run(STARTED, acts).Some? && AtEachStep(acts, LeavesNoConnection)
    ensures var t := Run(STARTED, acts).value;
            t.main.Returned? ==> t.conns == 0
  {
    if acts != [] {
      var front, a := acts[..|acts| - 1], acts[|acts| - 1];
      AtEachEarlierStep(acts, LeavesNoConnection);
      ConnectionsStayGone(front);
      RunKeepsInv(front);
      assert LeavesNoConnection(Run(STARTED, front).value, a);
      StepsStayIdle(Run(STARTED, front).value, a);
    }
  }

  lemma {:induction false} RequestsStayGone(acts: seq<Action>)
    requires Run(STARTED, acts).Some? && AtEachStep(acts, LeavesNoRequest)
    ensures var t := Run(STARTED, acts).value;
            t.main.Returned? ==> t.inFlight == 0
  {
    if acts != [] {
      var front, a := acts[..|acts| - 1], acts[|acts| - 1];
      AtEachEarlierStep(acts, LeavesNoRequest);
      RequestsStayGone(front);
      RunKeepsInv(front);
      assert LeavesNoRequest(Run(STARTED, front).value, a);
      StepsStayIdle(Run(STARTED, front).value, a);
    }
  }

  lemma StepsStayIdle(s: State, a: Action)
    requires Inv(s) && Enabled(s, a)
    ensures LeavesNoConnection(s, a) && (s.main.Returned? ==> s.conns == 0) ==>
              var t := Step(s, a); t.main.Returned? ==> t.conns == 0
    ensures LeavesNoRequest(s, a) && (s.main.Returned? ==> s.inFlight == 0) ==>
              var t := Step(s, a); t.main.Returned? ==> t.inFlight == 0
  {
  }

  /** A request that is in flight, or else one that comes in on an open connection, outlives the
      pool. */
  lemma SomeRequestOutlives(s: State) returns (later: seq<Action>)
    requires s.main.Returned? && s.poolOpen && s.conns > 0
    ensures Run(s, later).Some? && Abandoned(Run(s, later).value)
  {
    var busy := if s.inFlight > 0 then s else Step(s, Arrive);
    var arrival := if s.inFlight > 0 then [] else [Arrive];
    assert Run(s, []) == Some(s);
    assert [Arrive][..0] == [];
    assert Run(s, arrival) == Some(busy);
    later := arrival + [ClosePool];
    assert later[..|arrival|] == arrival;
    assert Run(s, later) == Some(Step(busy, ClosePool));
  }

  lemma AbandonmentNeedsAConnection(s: State)
    requires Inv(s) && s.main.Returned? && s.poolOpen
    ensures CanAbandon(s) <==> s.conns > 0
  {
    if s.conns > 0 {
      var later := SomeRequestOutlives(s);
    } else if later :| Run(s, later).Some? && Abandoned(Run(s, later).value) {
      NothingComesBack(s, later);
    }
  }

  /** An error exit with an open connection can leave a request without a pool, and one without
      cannot. Requests that are in flight at the exit are left in any case if the pool is closed
      next. */
  lemma RequestsMayOutliveThePool(s: State, a: Action)
    requires Reachable(s) && IsErrorExit(a) && Enabled(s, a)
    ensures CanAbandon(Step(s, a)) <==> s.conns > 0
    ensures Enabled(Step(s, a), ClosePool)
    ensures s.inFlight > 0 ==> Abandoned(Step(Step(s, a), ClosePool))
  {
    ReachableInv(s);
    StepKeepsInv(s, a);
    AbandonmentNeedsAConnection(Step(s, a));
  }

  lemma Extend(s: State, acts: seq<Action>, a: Action)
    requires Run(STARTED, acts) == Some(s) && Enabled(s, a)
    ensures Run(STARTED, acts + [a]) == Some(Step(s, a))
  {
  }

  lemma ReachableStep(s: State, a: Action)
    requires Reachable(s) && Enabled(s, a)
    ensures Reachable(Step(s, a))
  {
    var acts :| Run(STARTED, acts) == Some(s);
    Extend(s, acts, a);
  }

  lemma OneRequestIsReachable() returns (s: State)
    ensures Reachable(s) && s == STARTED.(conns := 1, inFlight := 1)
  {
    assert Run(STARTED, []) == Some(STARTED);
    ReachableStep(STARTED, Connect);
    ReachableStep(STARTED.(conns := 1), Arrive);
    s := STARTED.(conns := 1, inFlight := 1);
  }

  lemma AbandonedByDrain() returns (s: State)
    ensures Reachable(s) && s.main == Returned(DrainError) && Abandoned(s)
  {
    s := OneRequestIsReachable();
    ReachableStep(s, Signal);
    s := s.(signalled := true);
    ReachableStep(s, TakeSignal);
    s := s.(main := Draining);
    ReachableStep(s, DrainTimesOut);
    s := s.(main := Returned(DrainError));
    ReachableStep(s, ClosePool);
    s := s.(poolOpen := false);
  }

  lemma AbandonedByServeError() returns (s: State)
    ensures Reachable(s) && s.main == Returned(ServeError(false)) && Abandoned(s)
  {
    hide Reachable;
    s := OneRequestIsReachable();
    ReachableStep(s, ServeFails);
    s := s.(serve := Reporting);
    ReachableStep(s, Send);
    s := s.(serve := Closing, notify := Channel(1, false));
    ReachableStep(s, TakeNotify);
    s := s.(main := Returned(ServeError(false)), notify := Channel(0, false));
    ReachableStep(s, ClosePool);
    s := s.(poolOpen := false);
  }

  /** Seen from the result: only an error can come with an abandoned request, and both errors can. */
  lemma OnlyErrorsAbandonRequests(exit: Exit)
    requires exit != ServeError(true)
    ensures (exists s :: Reachable(s) && s.main == Returned(exit) && Abandoned(s)) <==> exit != Clean
  {
    match exit
    case Clean =>
      forall s | Reachable(s) && s.main == Returned(exit) ensures s.inFlight == 0 { ReachableInv(s); }
    case DrainError => var s := AbandonedByDrain();
    case ServeError(_) => var s := AbandonedByServeError();
  }

  // ----- app.Run

  class Service {
    ghost var log: seq<Action>
    var state: State

    ghost predicate Valid()
      reads this
    {
      Run(STARTED, log) == Some(state)
    }

    /** server.Start on an open pool. */
    constructor ()
      ensures Valid() && state == STARTED
    {
      log := [];
      state := STARTED;
    }

    method Perform(a: Action)
      requires Valid() && Enabled(state, a)
      modifies this
      ensures Valid() && state == Step(old(state), a) && log == old(log) + [a]
    {
      Extend(state, log, a);
      state := Step(state, a);
      log := log + [a];
    }

    /** Steps of app.Run itself; everything else happens beside it. */
    static predicate IsMain(a: Action) {
      a.TakeSignal? || a.TakeNotify? || a.DrainCompletes? || a.DrainTimesOut? || a.ClosePool?
    }

    /** The goroutine, the clients and the operating system take any number of steps. */
    method Interfere()
      requires Valid()
      modifies this
      ensures Valid() && state.main == old(state.main) && state.poolOpen == old(state.poolOpen)
    {
      var steps: int := *;
      while steps > 0
        invariant Valid() && state.main == old(state.main) && state.poolOpen == old(state.poolOpen)
      {
        var a: Action := *;
        if !IsMain(a) && Enabled(state, a) { Perform(a); }
        steps := steps - 1;
      }
    }

    /** waitForShutdown: returns nil exactly after a complete drain, and otherwise the error of the
        server or of the drain. A call that returns has seen a signal or a report. */
    method WaitForShutdown() returns (exit: Exit)
      requires Valid() && state.main.Selecting?
      modifies this
      ensures Valid() && state.main == Returned(exit) && state.poolOpen == old(state.poolOpen)
      ensures exit != ServeError(true)
      ensures exit == Clean ==> state.conns == state.inFlight == 0
    {
      Interfere();
      if !Enabled(state, TakeNotify) && !state.signalled { Perform(Signal); }
      RunKeepsInv(log);
      var notifyFirst: bool := *;
      if Enabled(state, TakeNotify) && (notifyFirst || !state.signalled) {
        Perform(TakeNotify);
        return state.main.exit;
      }
      Perform(TakeSignal);

      Interfere();
      var timedOut: bool := *;
      if timedOut || state.conns > 0 {
        Perform(DrainTimesOut);
        return DrainError;
      }
      Perform(DrainCompletes);
      RunKeepsInv(log);
      return Clean;
    }

    /** The end of Run: the deferred close of the pool comes after waitForShutdown has returned. If
        Run returns nil, no request is left. */
    method RunToEnd() returns (exit: Exit)
      requires Valid() && state == STARTED
      modifies this
      ensures Valid() && state.main == Returned(exit) && !state.poolOpen
      ensures exit == Clean ==> state.conns == state.inFlight == 0
    {
      exit := WaitForShutdown();
      Interfere();
      Perform(ClosePool);
      RunKeepsInv(log);
    }
  }
}
