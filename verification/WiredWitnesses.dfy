/** The states in which a promise fails, or an exact condition has both its sides, are
    all reached from a start. */
module WiredWitnesses {
  import opened Wrappers
  import opened StateMachine
  import opened ManagerModel
  import opened ReconnectHistory
  import opened ReconnectWait
  import opened Async
  import opened Drained
  import opened DrainedInvariant
  import opened DrainedSteps
  import opened DrainedSchedule
  import opened DrainedLoss
  import opened HandlerLine
  import opened Wired
  import opened WiredSteps
  import opened WiredFinality
  import opened WiredDialling
  import opened WiredLoss
  import opened WiredProperties
  import opened WiredReconnect
  import opened WiredReachability
  import opened WiredFailures
  import opened WiredSessions
  import Backoff

  /** A TV with an address. */
  function Tv(initialConnectRetries: bool, autoReconnect: bool): Connection {
    Connection("tv", Some(TV_URL), true, ConnectionSettings(initialConnectRetries, autoReconnect))
  }

  function SceneOf(operational: bool, c: Connection): Scene {
    Scene(operational, {c}, c, true, false, false)
  }

  lemma StagedIsReachable(w: Wired, sc: Scene)
    requires Reached(w, sc.operational, sc.offered)
    ensures Reachable(w)
  {
  }

  // --------------------------------------------------------------------- cancel

  /** The TV is in sight when the connect fails, and out of sight a moment later. */
  lemma ReachResting() returns (w: Wired)
    ensures Reachable(w) && DrainedWired(w) && w.b.fsm == Disconnected
    ensures w.b.m.reconnect.flow == Active && ComesBack(w.b.m, w.line.inbox)
  {
    var sc := SceneOf(true, Tv(true, true));
    var start := ReachConnecting(sc);
    var seen := EnvWith(true, false, Unreadable);
    assert Preparing(start.b.m, seen).reconnect.flow == Active;
    hide Reached, WiredInv;
    var failed := ReachFailed(start, sc, seen);
    w := ReachAbandoned(failed, sc);
    StagedIsReachable(w, sc);
  }

  lemma CanAsk(w: Wired, msg: ManagerMessage)
    requires DrainedWired(w) && (msg == CallerDisconnect || (msg == CancelReconnect && w.b.m.reconnect.flow == Active))
    ensures CanTake(w, Asking(msg, FAR), [])
  {
    EnvsArePlausible(w.b.m);
  }

  /** Main result: the exception of CancelIsFinalExactly is reached from a start. */
  lemma CancelCanFailToBeFinal()
    ensures exists w: Wired ::
      && Reachable(w) && DrainedWired(w) && KeepsTarget(w.b.m.reconnect.flow)
      && CanTake(w, Asking(CancelReconnect, FAR), [])
      && CanDial(AfterMove(w, Take(Asking(CancelReconnect, FAR), [])), Some(SendRegisterPayload))
  {
    var w := ReachResting();
    CanAsk(w, CancelReconnect);
    hide Reachable, WiredInv, CanTake, CanMove, AfterMove, CanDial;
    CancelIsFinalExactly(w, FAR, []);
  }

  // ----------------------------------------------------------------- disconnect

  /** A disconnect asked for here is not the end of it. */
  ghost predicate SurvivesDisconnect(w: Wired) {
    && Reachable(w) && DrainedWired(w) && CanTake(w, Asking(CallerDisconnect, FAR), [])
    && CanDial(AfterMove(w, Take(Asking(CallerDisconnect, FAR), [])), None)
  }

  lemma GoingOnSurvives(w: Wired)
    requires Reachable(w) && DrainedWired(w) && GoesOn(w.b.m, w.b.fsm, w.line)
    ensures SurvivesDisconnect(w)
  {
    CanAsk(w, CallerDisconnect);
    hide Reachable, WiredInv, CanTake, CanMove, AfterMove, CanDial, GoesOn;
    DisconnectIsFinalExactly(w, FAR, []);
  }

  lemma ConnectingSurvives(operational: bool, autoReconnect: bool) returns (w: Wired)
    ensures SurvivesDisconnect(w) && w.b.fsm.Connecting? && w.b.m.checker.operational == operational
    ensures InitialConnectRetries(w.b.m) && AutoReconnect(w.b.m) == autoReconnect && w.b.m.sessions == 0
  {
    var sc := SceneOf(operational, Tv(true, autoReconnect));
    w := ReachConnecting(sc);
    assert GoesOn(w.b.m, w.b.fsm, w.line);
    StagedIsReachable(w, sc);
    hide Reachable, Reached, WiredInv, SurvivesDisconnect;
    GoingOnSurvives(w);
  }

  /** Main result: at rest, and while connecting, with a checker or without, a
      disconnect can fail to be final. */
  lemma DisconnectCanFailWhileConnecting(operational: bool)
    ensures exists w: Wired :: SurvivesDisconnect(w) && w.b.fsm == Disconnected
    ensures exists w: Wired :: SurvivesDisconnect(w) && w.b.fsm.Connecting? && w.b.m.checker.operational == operational
  {
    var resting := ReachResting();
    hide Reachable, WiredInv, SurvivesDisconnect;
    GoingOnSurvives(resting);
    var connecting := ConnectingSurvives(operational, true);
  }

  lemma ReachClosed(operational: bool, seen: bool, pairs: bool, initialConnectRetries: bool) returns (w: Wired)
    requires seen ==> operational
    ensures At(w, SceneOf(operational, Tv(initialConnectRetries, true)), Failing) && w.b.fsm.Disconnecting?
    ensures w.b.m.pairing == pairs
    ensures w.b.m.reconnect.flow == if operational && !seen then WaitingForTvOnNetwork else Active
  {
    var sc := SceneOf(operational, Tv(initialConnectRetries, true));
    var up := ReachUp(sc, pairs);
    assert Up(up.b.fsm);
    hide At, Up;
    var lost := ReachLost(up, sc, seen);
    hide Staged;
    w := ReachClosing(lost, sc, seen);
  }

  /** Main result: every way for a flow to go on while Disconnecting is reached: with a
      retry due, pairing or not, and with the TV awaited; and without a checker. */
  lemma DisconnectCanFailWhileClosing(seen: bool, pairs: bool)
    ensures exists w: Wired ::
      && SurvivesDisconnect(w) && w.b.fsm.Disconnecting? && w.b.m.pairing == pairs
      && w.b.m.reconnect.flow == if seen then Active else WaitingForTvOnNetwork
    ensures exists w: Wired ::
      && SurvivesDisconnect(w) && w.b.fsm.Disconnecting? && !w.b.m.checker.operational
  {
    var closing := ReachClosed(true, seen, pairs, true);
    var blind := ReachClosed(false, false, false, true);
    assert GoesOn(closing.b.m, closing.b.fsm, closing.line);
    assert GoesOn(blind.b.m, blind.b.fsm, blind.line);
    StagedIsReachable(closing, SceneOf(true, Tv(true, true)));
    StagedIsReachable(blind, SceneOf(false, Tv(true, true)));
    hide Reachable, Reached, WiredInv, SurvivesDisconnect;
    GoingOnSurvives(closing);
    GoingOnSurvives(blind);
  }

  // -------------------------------------------------------------------- pairing

  /** Main result: a pairing that dials again by itself is reached. */
  lemma PairingCanDial()
    ensures exists w: Wired ::
      Reachable(w) && DrainedWired(w) && w.b.fsm.Pairing? && CanDial(w, Some(InitializeConnection))
  {
    var sc := SceneOf(true, Tv(true, true));
    var w := ReachUp(sc, true);
    StagedIsReachable(w, sc);
    hide Reachable, Reached, WiredInv, CanDial;
    PairingDialsExactly(w);
  }

  // ------------------------------------------------------- a connection lost for good

  /** A connection up with nothing against dialling it again: it auto-reconnects, no
      disconnect was asked for, no pairing is under way; only there is no checker. */
  ghost predicate Wanted(w: Wired) {
    && Reachable(w) && DrainedWired(w) && w.b.fsm.Connected? && !w.b.m.checker.operational
    && AutoReconnect(w.b.m) && w.b.m.wsUrl.Some? && !w.b.m.manualDisconnect && !w.b.m.pairing
  }

  lemma WantedMore(w: Wired, mv: Move, offered: set<Connection>)
    requires Wanted(w) && Reached(w, false, offered) && CanMove(w, mv) && !mv.Take?
    ensures Wanted(AfterMove(w, mv)) && Reached(AfterMove(w, mv), false, offered)
    ensures AfterMove(w, mv).b == w.b
  {
    MoveIsStep(w, mv);
    hide WiredInv, CanMove, AfterMove;
    ReachMore(w, mv, false, offered);
    StagedIsReachable(AfterMove(w, mv), Scene(false, offered, Tv(true, true), false, false, false));
  }

  /** Main result: a lost connection that reconnects, when its handler is still there to
      take the shutdown, is lost for good once the handler has returned; and one whose
      handler ends without naming a fault is lost for good in any case. */
  lemma ConnectionCanBeLostForGood()
    ensures exists w: Wired ::
      Wanted(w) && w.line.inbox == [WsServerClosedConnection, WsDisconnected] && w.line.open && CanDial(w, None)
    ensures exists w: Wired ::
      Wanted(w) && w.line.inbox == [WsServerClosedConnection, WsDisconnected] && !w.line.open && !CanDial(w, None)
    ensures exists w: Wired ::
      Wanted(w) && w.line.inbox == [WsDisconnected] && w.line.open && !CanDial(w, None)
  {
    var sc := SceneOf(false, Tv(true, true));
    var up := ReachUp(sc, false);
    StagedIsReachable(up, sc);
    assert Wanted(up) && up.line == Line(Talking, [], Talking, true);
    hide Reached, Reachable, WiredInv, CanDial;
    EndsNamingAFault(up, sc.offered);
    EndsSilently(up, sc.offered);
  }

  lemma EndsNamingAFault(up: Wired, offered: set<Connection>)
    requires Wanted(up) && Reached(up, false, offered) && up.line == Line(Talking, [], Talking, true)
    ensures exists w: Wired ::
      Wanted(w) && w.line.inbox == [WsServerClosedConnection, WsDisconnected] && w.line.open && CanDial(w, None)
    ensures exists w: Wired ::
      Wanted(w) && w.line.inbox == [WsServerClosedConnection, WsDisconnected] && !w.line.open && !CanDial(w, None)
  {
    var f := FootingOf(up.b.fsm, up.b.m.pairing);
    hide Reached, Wanted, CanDial;
    WantedMore(up, Speak(WsServerClosedConnection), offered);
    var closed := AfterMove(up, Speak(WsServerClosedConnection));
    WantedMore(closed, Speak(WsDisconnected), offered);
    var ended := AfterMove(closed, Speak(WsDisconnected));
    assert ended.line.inbox == [WsServerClosedConnection, WsDisconnected];
    WantedMore(ended, Return, offered);
    var gone := AfterMove(ended, Return);
    assert f == Fresh(false) by { WantedFacts(up); }
    assert Recovers(f, ended.line.inbox, Ended);
    WantedDials(ended);
    WantedDials(gone);
  }

  lemma EndsSilently(up: Wired, offered: set<Connection>)
    requires Wanted(up) && Reached(up, false, offered) && up.line == Line(Talking, [], Talking, true)
    ensures exists w: Wired :: Wanted(w) && w.line.inbox == [WsDisconnected] && w.line.open && !CanDial(w, None)
  {
    hide Reached, Wanted, CanDial;
    WantedMore(up, Speak(WsDisconnected), offered);
    var w := AfterMove(up, Speak(WsDisconnected));
    assert w.line.inbox == [WsDisconnected] && w.line.inbox[1..] == [];
    var f := FootingOf(w.b.fsm, w.b.m.pairing);
    assert Hearing(f, WsDisconnected) == f && !Recovers(f, w.line.inbox, Ended);
    WantedDials(w);
  }

  lemma WantedFacts(w: Wired)
    requires Wanted(w)
    ensures w.b.fsm.Connected? && !w.b.m.pairing
  {
  }

  lemma WantedDials(w: Wired)
    requires Wanted(w)
    ensures CanDial(w, None) <==> Lasts(w)
  {
    hide Reachable, WiredInv, CanDial, Lasts;
    LostConnectionDialsExactly(w);
  }

  // ------------------------------------------------------ retries that never come

  /** Connecting for the first time, with a flow Active to retry it. */
  ghost predicate FirstConnecting(w: Wired) {
    && Reachable(w) && DrainedWired(w) && w.b.fsm.Connecting? && w.b.m.reconnect.flow == Active
    && InitialConnectRetries(w.b.m) && w.b.m.wsUrl.Some? && !w.b.m.manualDisconnect && w.b.m.sessions == 0
  }

  /** A connect error read here is not dialled again, whatever is learnt meanwhile. */
  ghost predicate NeverRetried(b: Settled)
    requires Inv(b) && b.fsm.Connecting? && b.pend == []
  {
    forall lost, read, handled |
      CanStep(b, FailToConnect(lost)) && Plausible(b.m, read) && Plausible(b.m, handled) ::
      var t := After(b, FailToConnect(lost));
      && CanStep(t, HandleUpdate(read)) && CanStep(After(t, HandleUpdate(read)), HandleUpdate(handled))
      && !Dials(After(t, HandleUpdate(read)), HandleUpdate(handled))
  }

  lemma WithoutAutoReconnect(b: Settled)
    requires Inv(b) && b.fsm.Connecting? && b.pend == [] && !b.m.manualDisconnect && !AutoReconnect(b.m)
    ensures NeverRetried(b)
  {
    hide Inv, CanStep, After, Dials, Plausible;
    forall lost, read, handled |
      CanStep(b, FailToConnect(lost)) && Plausible(b.m, read) && Plausible(b.m, handled)
      ensures
        var t := After(b, FailToConnect(lost));
        && CanStep(t, HandleUpdate(read)) && CanStep(After(t, HandleUpdate(read)), HandleUpdate(handled))
        && !Dials(After(t, HandleUpdate(read)), HandleUpdate(handled))
    {
      RetryDecision(b, lost, read, handled);
    }
  }

  /** Main result: with retries of initial connects alone, a first connect is reached
      whose failure is never retried, though its flow is Active; and one that a disconnect
      asked for meanwhile does not keep from being dialled again. */
  lemma InitialRetriesAlone(operational: bool)
    ensures exists w: Wired ::
      FirstConnecting(w) && !AutoReconnect(w.b.m) && w.b.m.checker.operational == operational && NeverRetried(w.b)
    ensures exists w: Wired ::
      && SurvivesDisconnect(w) && w.b.fsm.Connecting? && w.b.m.checker.operational == operational
      && InitialConnectRetries(w.b.m) && !AutoReconnect(w.b.m) && w.b.m.sessions == 0
  {
    var sc := SceneOf(operational, Tv(true, false));
    var w := ReachConnecting(sc);
    StagedIsReachable(w, sc);
    assert FirstConnecting(w);
    hide Reachable, Reached, SurvivesDisconnect, NeverRetried, At;
    WithoutAutoReconnect(w.b);
    var survivor := ConnectingSurvives(operational, false);
  }

  // -------------------------------------------------------------- the two schedules

  /** A run of n connect errors, drained at its end. */
  ghost predicate FailsRun(b: Settled, steps: seq<Step>, n: nat) {
    CanRun(b, steps) && KeepsFailing(b, steps) && RunFrom(b, steps).pend == [] && Failures(steps) == n
  }

  lemma FailingRun(w: Wired, n: nat) returns (steps: seq<Step>)
    requires Failable(w)
    ensures FailsRun(w.b, steps, n)
  {
    FailsAnyTimes(w, n);
    var mvs :| FailsTimes(w, mvs, n);
    FailingIsSettled(w, mvs);
    steps := StepsOf(mvs);
  }

  /** Main result: with both settings on, a state is reached from which n connect errors
      in a row are waited out by the growing delays, for every n. */
  lemma ScheduleIsRun(operational: bool, n: nat)
    ensures exists w: Wired, steps ::
      && Reachable(w) && FailsRun(w.b, steps, n) && w.b.m.checker.operational == operational
      && InitialConnectRetries(w.b.m) && AutoReconnect(w.b.m)
      && Waits(RunFrom(w.b, steps).m.reconnect.marks) ==
           Waits(w.b.m.reconnect.marks) + DelaysFrom(w.b.m.reconnect.attempts, n)
  {
    var sc := SceneOf(operational, Tv(true, true));
    var w := ReachConnecting(sc);
    StagedIsReachable(w, sc);
    assert Failable(w) && Inv(w.b);
    hide Failable, Reachable, At, Inv, CanRun, RunFrom, KeepsFailing, Waits;
    var steps := FailingRun(w, n);
    BackoffSchedule(w.b, steps);
  }

  /** Handled in sight of the TV, or without a checker, a disconnect that a flow waited
      for is dialled again. */
  lemma CompletesByRetry(m: Manager)
    requires m.outbox == [] && m.link == Open && m.status == Disconnected && CanAttempt(m) && m.wsUrl.Some?
    requires m.reconnect.flow == Active && !m.pairing && m.connection.Some? && m.connection.value.wsUrl.Some?
    ensures var r := OnOutput(m, HandleSuccessfulDisconnect, Seen(m));
      && r.outbox == [Connect(m.connection.value.wsUrl.value)] && r.ws.joinHandle.None?
      && r.connection == m.connection && r.wsUrl.Some? && r.sessions == m.sessions && !r.pairing
      && !r.manualDisconnect && !r.initialized && r.checker.operational == m.checker.operational
      && (m.checker.pingTarget ==> r.checker.pingTarget)
  {
    var m1 := InitializeManagerState(AwaitHandler(m.(manualDisconnect := false)), Unreadable);
    RetriedIs(SetFlow(m1, Active), m.connection.value);
    hide Retry;
  }

  lemma RetriedIs(m: Manager, c: Connection)
    requires m.status == Disconnected && m.link == Open && c.wsUrl.Some? && m.outbox == []
    ensures var r := Retry(m, c, false);
      && r.outbox == [Connect(c.wsUrl.value)] && r.ws == m.ws && r.connection == Some(c) && r.wsUrl == c.wsUrl
      && r.sessions == m.sessions && r.pairing == m.pairing && r.manualDisconnect == m.manualDisconnect
      && r.initialized == m.initialized && r.checker.operational == m.checker.operational
      && (m.checker.pingTarget ==> r.checker.pingTarget)
  {
  }

  /** The disconnect is complete, and the connection dialled again. */
  lemma ReachRedialled(closing: Wired, sc: Scene) returns (w: Wired)
    requires At(closing, sc, Failing) && closing.b.fsm.Disconnecting? && closing.b.m.reconnect.flow == Active
    requires !closing.b.m.pairing && sc.pinged && sc.target.wsUrl.Some? && !sc.manual && !sc.initialized
    ensures At(w, sc, Starting) && w.b.fsm.Connecting? && w.line == NEW_HANDLER && w.b.m.sessions == closing.b.m.sessions
  {
    DrainedFacts(closing);
    EnvsArePlausible(closing.b.m);
    var fsm := closing.b.fsm;
    assert OnWs(closing.b.m, WsDisconnected, FAR) == closing.b.m.(outbox := [DisconnectionComplete]);
    assert Emit(fsm, DisconnectionComplete) == [NewState(Disconnected), Emitted(HandleSuccessfulDisconnect)];
    hide Reached, WiredInv, OnWs, Emit;
    var done := ReachEmitted(closing, sc, Failing, WsDisconnected, FAR, HandleSuccessfulDisconnect);
    w := ReachDialledAgain(done, sc);
  }

  lemma ReachDialledAgain(done: Wired, sc: Scene) returns (w: Wired)
    requires Staged(done, sc) && done.b.pend == [Emitted(HandleSuccessfulDisconnect)] && done.b.fsm == Disconnected
    requires done.line == Line(Ended, [], Ended, true) && done.b.m.reconnect.flow == Active && !done.b.m.pairing
    requires sc.pinged && sc.target.wsUrl.Some? && !sc.manual && !sc.initialized
    ensures At(w, sc, Starting) && w.b.fsm.Connecting? && w.line == NEW_HANDLER && w.b.m.sessions == done.b.m.sessions
  {
    var url := sc.target.wsUrl.value;
    var mv := Take(HandleUpdate(Seen(done.b.m)), []);
    HandlingIsPlaced(done, HandleSuccessfulDisconnect);
    SeenIsPlausible(done.b.m);
    CompletesByRetry(done.b.m);
    assert done.b.m.running && SaysAll(Ended, []) == Some(Ended);
    hide Reached, WiredInv, OnOutput, Plausible, Refuses, Handling, Seen;
    RunOne(Disconnected, Connect(url));
    assert [] + Emit(Disconnected, Connect(url)) == [NewState(Connecting(url)), Emitted(ConnectToTv(url))];
    assert CanMove(done, mv);
    ReachMore(done, mv, sc.operational, sc.offered);
    hide CanMove;
    w := ReachStarted(AfterMove(done, mv), sc);
  }

  lemma ReachSecond(operational: bool) returns (w: Wired)
    ensures At(w, SceneOf(operational, Tv(false, true)), Starting) && w.b.fsm.Connecting? && w.line == NEW_HANDLER
    ensures w.b.m.sessions > 0
  {
    var sc := SceneOf(operational, Tv(false, true));
    var start := ReachConnecting(sc);
    var up := ReachRegistering(start, sc);
    assert Up(up.b.fsm) && !up.b.m.pairing;
    hide At, Up;
    var lost := ReachLost(up, sc, operational);
    hide Staged;
    var closing := ReachClosing(lost, sc, operational);
    w := ReachRedialled(closing, sc);
  }

  /** Main result: with auto_reconnect alone, after a session, a state is reached from
      which n connect errors in a row wait 250 ms each, for every n. */
  lemma FlatScheduleIsRun(operational: bool, n: nat)
    ensures exists w: Wired, steps ::
      && Reachable(w) && FailsRun(w.b, steps, n) && w.b.m.checker.operational == operational
      && !InitialConnectRetries(w.b.m) && AutoReconnect(w.b.m) && w.b.m.sessions > 0
      && Waits(RunFrom(w.b, steps).m.reconnect.marks) == Waits(w.b.m.reconnect.marks) + FirstDelays(n)
  {
    var w := ReachSecond(operational);
    StagedIsReachable(w, SceneOf(operational, Tv(false, true)));
    assert Failable(w) && Inv(w.b);
    hide Failable, Reachable, At, Inv, CanRun, RunFrom, KeepsFailing, Waits;
    var steps := FailingRun(w, n);
    BackoffNeverGrowsWithoutInitialRetries(w.b, steps);
  }

  // ---------------------------------------------------------------- a URL replaced

  const OTHER_URL: Url := "ws://192.168.0.8:3000/"

  /** The file read meanwhile holds another URL, and one tick comes before the retry. */
  const REPLACED: Env :=
    var a := Answer(false, Stored(Some(OTHER_URL)));
    Env(false, false, false, a, Unreadable, [a, a, a, a, a, a], [Feedback(Some(0)), RetryDue])

  /** A failed connect whose retry announces one URL and dials another. */
  predicate AnnouncesAnother(m: Manager) {
    var m1 := ForceReset(m, REPLACED.answer.disk);
    var wait := WaitBefore(m1, false, REPLACED);
    && OnOutput(m, HandleConnectError, REPLACED) == InitiateReconnect(m1, false, REPLACED)
    && wait.Some? && |wait.value.announced| == 1 && wait.value.announced[0].WaitingToReconnect?
    && m.connection.Some? && m.connection.value.wsUrl.Some?
    && Connect(m.connection.value.wsUrl.value) in OnOutput(m, HandleConnectError, REPLACED).outbox
    && wait.value.announced[0].url != m.connection.value.wsUrl.value
  }

  lemma AnnouncesOther(m: Manager)
    requires m.link == Open && m.status == Disconnected && m.reconnect.flow == Active && !m.checker.operational
    requires m.connection == Some(Tv(true, true)) && m.sessions == 0
    ensures AnnouncesAnother(m)
  {
    var m1 := ForceReset(m, REPLACED.answer.disk);
    assert m1.wsUrl == Some(OTHER_URL) && m1.connection == m.connection;
    assert REPLACED.waitTicks[1..][0].RetryDue?;
    assert OTHER_URL[15] != TV_URL[15];
    RetrySends(SetFlow(m1, Active), m.connection.value);
    hide ForceReset, Retry, Backoff.Delay;
  }

  lemma RetrySends(m: Manager, c: Connection)
    requires m.link == Open && m.status == Disconnected && c.wsUrl.Some?
    ensures Connect(c.wsUrl.value) in Retry(m, c, false).outbox
  {
    var out := Retry(m, c, false).outbox;
    assert out[|out| - 1] == Connect(c.wsUrl.value);
  }

  /** Main result: a retry that announces another URL than it dials is reached. */
  lemma AnnouncedUrlCanDiffer()
    ensures exists w: Wired ::
      && Reachable(w) && WiredInv(w) && w.b.pend == [Emitted(HandleConnectError)]
      && Plausible(w.b.m, REPLACED) && AnnouncesAnother(w.b.m)
  {
    var sc := SceneOf(false, Tv(true, true));
    var start := ReachConnecting(sc);
    assert Preparing(start.b.m, FAR).reconnect.flow == Active;
    assert Preparing(start.b.m, FAR) == start.b.m.(reconnect := Preparing(start.b.m, FAR).reconnect);
    EnvsArePlausible(start.b.m);
    hide Reached, Preparing;
    var failed := ReachFailed(start, sc, FAR);
    StagedIsReachable(failed, sc);
    assert failed.b.m.link == Open;
    hide WiredInv, AnnouncesAnother;
    AnnouncesOther(failed.b.m);
  }

  // ------------------------------------------------------------ sessions, and hangings

  /** Main result: for every connection with a URL, with a checker or without, a state
      Communicating with it is reached from a start; the connection is the last good one,
      and both may be used: the condition for a run to dial again is that of
      LostConnectionDialsExactly. */
  lemma CommunicatingIsReached(operational: bool, c: Connection)
    requires c.wsUrl.Some?
    ensures exists w: Wired ::
      && Reached(w, operational, {c}) && DrainedWired(w) && w.b.fsm == Communicating(c.wsUrl.value)
      && w.b.m.connection == Some(c) && w.b.m.lastGood == Some(c) && w.b.m.initialized && !w.b.m.pairing
  {
    var sc := Scene(operational, {c}, c, false, false, false);
    var start := ReachUp(sc, false);
    assert start.b.fsm.url == c.wsUrl.value by { UpIsAimed(start, sc); }
    hide At;
    var initializing := ReachInitializing(start, sc);
    var w := ReachCommunicating(initializing, sc);
    AtFacts(w, sc.(initialized := true));
  }

  lemma AtFacts(w: Wired, sc: Scene)
    requires At(w, sc, Talking)
    ensures Reached(w, sc.operational, sc.offered) && DrainedWired(w) && Aimed(w.b.m, sc)
    ensures w.line == Line(Talking, [], Talking, true)
  {
  }

  lemma UpIsAimed(w: Wired, sc: Scene)
    requires At(w, sc, Talking) && Up(w.b.fsm) && sc.target.wsUrl.Some?
    ensures w.b.fsm.url == sc.target.wsUrl.value
  {
  }

  /** The handler speaks or returns; the manager stays where it is. */
  lemma ReachQuietly(w: Wired, mv: Move, operational: bool, offered: set<Connection>) returns (t: Wired)
    requires Reached(w, operational, offered) && WiredInv(w) && CanMove(w, mv) && !mv.Take?
    ensures t == AfterMove(w, mv) && Reached(t, operational, offered) && WiredInv(t) && t.b == w.b
  {
    MoveIsStep(w, mv);
    hide Reached, WiredInv, CanMove, AfterMove;
    ReachMore(w, mv, operational, offered);
    t := AfterMove(w, mv);
  }

  /** The handler has gone, leaving a volume unread. */
  lemma ReachVolumeUnread(start: Wired, sc: Scene) returns (w: Wired)
    requires At(start, sc, Talking)
    ensures Reached(w, sc.operational, sc.offered) && WiredInv(w) && w.b == start.b
    ensures w.line == Line(Talking, [WsPayload(Volume), WsDisconnected], Ended, false)
  {
    AtFacts(start, sc);
    assert Says(Talking, WsPayload(Volume)) == Some(Talking) && Says(Talking, WsDisconnected) == Some(Ended);
    assert [] + [WsPayload(Volume)] == [WsPayload(Volume)];
    assert [WsPayload(Volume)] + [WsDisconnected] == [WsPayload(Volume), WsDisconnected];
    hide Reached, WiredInv, At, Says;
    var heard := ReachQuietly(start, Speak(WsPayload(Volume)), sc.operational, sc.offered);
    var ended := ReachQuietly(heard, Speak(WsDisconnected), sc.operational, sc.offered);
    w := ReachQuietly(ended, Return, sc.operational, sc.offered);
  }

  /** A command asked for now finds no handler: the connection is dropped. */
  lemma CommandDrops(w: Wired, c: TvCommand)
    requires DrainedWired(w) && w.b.fsm.Communicating? && !w.line.open
    ensures var ask := Take(Asking(SendTvCommand(c), FAR), []);
      && CanMove(w, ask)
      && var t := AfterMove(w, ask);
      && t == Wired(Settled(w.b.m, w.b.fsm, [NewState(w.b.fsm), Emitted(PassCommand(c))]), w.line)
  {
    EnvsArePlausible(w.b.m);
    UpFacts(w.b);
    assert w.b.m.running && OnCaller(w.b.m, SendTvCommand(c), FAR) == w.b.m.(outbox := [SendCommand(c)]);
    RunOne(w.b.fsm, SendCommand(c));
    assert [] + Emit(w.b.fsm, SendCommand(c)) == [NewState(w.b.fsm), Emitted(PassCommand(c))];
    assert w.line.inbox + [] == w.line.inbox;
    hide WiredInv, OnCaller, Plausible, Refuses;
  }

  lemma PassDrops(w: Wired, c: TvCommand)
    requires WiredInv(w) && w.b.fsm.Communicating? && w.b.pend == [Emitted(PassCommand(c))] && !w.line.open
    requires w.b.m.reconnect.flow == Inactive
    ensures var mv := Take(HandleUpdate(FAR), []);
      && CanMove(w, mv)
      && var t := AfterMove(w, mv);
      && t.b.fsm == Disconnected && t.b.pend == [NewState(Disconnected)] && t.line == w.line
      && t.b.m.checker == w.b.m.checker && t.b.m.manualDisconnect == w.b.m.manualDisconnect
      && !t.b.m.initialized && !t.b.m.pairing
  {
    HandlingIsPlaced(w, PassCommand(c));
    EnvsArePlausible(w.b.m);
    PassingDrops(w.b.m, c);
    assert w.b.m.running && w.line.stage.Ended? && SaysAll(Ended, []) == Some(Ended);
    hide WiredInv, OnOutput, Plausible, Refuses, Handling;
    RunOne(w.b.fsm, Reset);
    assert [] + [NewState(Disconnected)] == [NewState(Disconnected)];
    assert w.line.inbox + [] == w.line.inbox;
  }

  lemma PassingDrops(m: Manager, c: TvCommand)
    requires m.ws.sender.Some? && m.link == Open && m.outbox == [] && m.reconnect.flow == Inactive
    ensures var r := OnOutput(m, PassCommand(c), FAR);
      && r.outbox == [Reset] && r.ws.joinHandle.None? && r.checker == m.checker
      && r.manualDisconnect == m.manualDisconnect && !r.initialized && !r.pairing
  {
  }

  /** Dropped, the manager reads the volume left behind. */
  lemma VolumeHeardAtRest(w: Wired)
    requires DrainedWired(w) && w.b.fsm == Disconnected && w.b.m.ws.receiver.Some?
    requires w.line.inbox != [] && w.line.inbox[0] == WsPayload(Volume) && !w.b.m.initialized
    ensures var mv := Take(HandleExternal(FromWs(WsPayload(Volume)), FAR), []);
      && CanMove(w, mv)
      && var t := AfterMove(w, mv);
      && t.b == Settled(w.b.m.(initialized := true), Disconnected, [TransitionError(StartCommunication, Disconnected)])
  {
    RestFacts(w);
    EnvsArePlausible(w.b.m);
    var r := w.b.m.(initialized := true, outbox := [StartCommunication]);
    assert w.b.m.running && OnWs(w.b.m, WsPayload(Volume), FAR) == r;
    RunOne(Disconnected, StartCommunication);
    assert [] + Emit(Disconnected, StartCommunication) == [TransitionError(StartCommunication, Disconnected)];
    hide WiredInv, OnWs, Plausible, Refuses;
  }

  lemma ReceiverHeld(w: Wired)
    requires DrainedWired(w) && Up(w.b.fsm)
    ensures w.b.m.ws.receiver.Some? && w.b.m.reconnect.flow == Inactive
  {
  }

  lemma PassKeepsReceiver(m: Manager, c: TvCommand)
    requires m.link == Open
    ensures OnOutput(m, PassCommand(c), FAR).ws.receiver == m.ws.receiver
  {
  }

  /** At rest, with a volume taken as heard. */
  lemma ReachHeardAtRest(start: Wired, sc: Scene) returns (w: Wired)
    requires At(start, sc, Talking) && start.b.fsm.Communicating? && !sc.manual && Fits(sc)
    requires sc.pinged ==> sc.target.hasAddress
    ensures Askable(w, sc.(initialized := true))
  {
    var c: TvCommand := "ssap";
    AtFacts(start, sc);
    ReceiverHeld(start);
    var operational, offered := sc.operational, sc.offered;
    var unread := ReachVolumeUnread(start, sc);
    CommandDrops(unread, c);
    PassKeepsReceiver(start.b.m, c);
    assert start.b.m.link == Open by { DrainedFacts(start); }
    hide At, WiredInv, Reached, CanMove, OnOutput;
    var ask, handle := Take(Asking(SendTvCommand(c), FAR), []), Take(HandleUpdate(FAR), []);
    ReachMore(unread, ask, operational, offered);
    var asked := AfterMove(unread, ask);
    ReadsState(asked, asked.b.fsm, PassCommand(c), None);
    ReachMore(asked, handle, operational, offered);
    var passing := AfterMove(asked, handle);
    w := ReachDropped(passing, sc, c);
  }

  lemma ReachDropped(passing: Wired, sc: Scene, c: TvCommand) returns (w: Wired)
    requires Reached(passing, sc.operational, sc.offered) && WiredInv(passing) && Fits(sc)
    requires passing.b.fsm.Communicating? && passing.b.pend == [Emitted(PassCommand(c))]
    requires passing.line == Line(Talking, [WsPayload(Volume), WsDisconnected], Ended, false)
    requires passing.b.m.reconnect.flow == Inactive && passing.b.m.ws.receiver.Some? && passing.b.m.link == Open
    requires passing.b.m.checker.operational == sc.operational && (sc.pinged ==> sc.target.hasAddress)
    requires !sc.manual && !passing.b.m.manualDisconnect
    ensures Askable(w, sc.(initialized := true))
  {
    var handle := Take(HandleUpdate(FAR), []);
    PassDrops(passing, c);
    PassKeepsReceiver(passing.b.m, c);
    assert AfterMove(passing, handle).b.m.ws.receiver.Some?;
    hide WiredInv, Reached, CanMove, OnOutput, AfterMove;
    ReachMore(passing, handle, sc.operational, sc.offered);
    var dropped := AfterMove(passing, handle);
    SkipUpdate(dropped, None);
    ReachMore(dropped, handle, sc.operational, sc.offered);
    w := ReachLeftover(AfterMove(dropped, handle), sc);
  }

  lemma ReachLeftover(rest: Wired, sc: Scene) returns (w: Wired)
    requires Reached(rest, sc.operational, sc.offered) && DrainedWired(rest) && Fits(sc) && rest.b.fsm == Disconnected
    requires rest.line == Line(Talking, [WsPayload(Volume), WsDisconnected], Ended, false)
    requires rest.b.m.ws.receiver.Some? && !rest.b.m.initialized && !rest.b.m.pairing
    requires rest.b.m.checker.operational == sc.operational && (sc.pinged ==> sc.target.hasAddress)
    requires !sc.manual && !rest.b.m.manualDisconnect
    ensures Askable(w, sc.(initialized := true))
  {
    var handle := Take(HandleUpdate(FAR), []);
    var read := Take(HandleExternal(FromWs(WsPayload(Volume)), FAR), []);
    VolumeHeardAtRest(rest);
    hide WiredInv, Reached, CanMove, AfterMove;
    ReachMore(rest, read, sc.operational, sc.offered);
    var heard := AfterMove(rest, read);
    SkipUpdate(heard, None);
    ReachMore(heard, handle, sc.operational, sc.offered);
    w := AfterMove(heard, handle);
  }

  /** Main result: a session that hangs is reached: a volume left unread by a handler that
      is gone is taken as heard, so the first volume of the next connection is not, and
      that connection never comes to be Communicating. */
  lemma SessionCanHang(operational: bool)
    ensures exists w: Wired ::
      && Reachable(w) && DrainedWired(w) && w.b.fsm.Initializing? && w.b.m.initialized
      && w.line == Line(Talking, [], Talking, true) && !CanCommunicate(w)
  {
    var sc := SceneOf(operational, Tv(true, true));
    var up := ReachUp(sc, false);
    hide At, Askable;
    var initializing := ReachInitializing(up, sc);
    var communicating := ReachCommunicating(initializing, sc);
    var again := sc.(initialized := true);
    var rest := ReachHeardAtRest(communicating, again);
    var start := ReachConnectingFrom(rest, again);
    var second := ReachRegistering(start, again);
    var w := ReachInitializing(second, again);
    AtFacts(w, again);
    StagedIsReachable(w, again);
    hide WiredInv, CanCommunicate, Reached, Reachable;
    InitializingGoesOnExactly(w);
  }

  /** Main result: a disconnect asked for at rest, which the machine refuses, is still taken
      as asked for when the next connection is lost: a connection up that auto-reconnects
      and is pinged is reached from which no run dials again. */
  lemma DisconnectOutlivesItsConnection(operational: bool)
    ensures exists w: Wired ::
      && Reachable(w) && DrainedWired(w) && w.b.fsm.Connected? && AutoReconnect(w.b.m)
      && w.b.m.checker.operational == operational && w.b.m.checker.pingTarget
      && w.line == Line(Talking, [], Talking, true) && w.b.m.manualDisconnect && !CanDial(w, None)
  {
    var sc := SceneOf(operational, Tv(true, true));
    var rest := StartWired(Unreadable, Unreadable, operational);
    StartRests(sc);
    hide StartWired;
    var asked := ReachRefusal(rest, sc);
    hide Askable, At;
    var start := ReachConnectingFrom(asked, sc.(manual := true));
    var w := ReachRegistering(start, sc.(manual := true));
    AtFacts(w, sc.(manual := true));
    StagedIsReachable(w, sc);
    hide WiredInv, CanDial, Reached, Reachable;
    LostConnectionDialsExactly(w);
  }

  lemma ReachRefusal(rest: Wired, sc: Scene) returns (w: Wired)
    requires Askable(rest, sc)
    ensures Askable(w, sc.(manual := true))
  {
    var ask := Take(Asking(CallerDisconnect, FAR), []);
    CanAsk(rest, CallerDisconnect);
    assert CanMove(rest, ask);
    Refused(rest, FAR, []);
    hide WiredInv, Reached, CanMove, CanTake;
    ReachMore(rest, ask, sc.operational, sc.offered);
    var refused := AfterMove(rest, ask);
    SkipUpdate(refused, None);
    ReachMore(refused, Take(HandleUpdate(FAR), []), sc.operational, sc.offered);
    w := AfterMove(refused, Take(HandleUpdate(FAR), []));
  }
}
