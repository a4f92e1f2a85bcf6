/** The runs in which connecting fails time after time, each handler saying what a
    handler says. */
module WiredFailures {
  import opened Wrappers
  import opened StateMachine
  import opened ManagerModel
  import opened Async
  import opened Drained
  import opened DrainedInvariant
  import opened DrainedSteps
  import opened DrainedFinality
  import opened DrainedSchedule
  import opened HandlerLine
  import opened Wired
  import opened WiredSteps
  import opened WiredDialling
  import opened WiredReachability

  predicate FailsBy(w: Wired, mv: Move) {
    mv.Take? ==> FailsToConnect(w.b.m, mv.step)
  }

  predicate FailsAlong(w: Wired, mvs: seq<Move>)
    requires CanMoves(w, mvs)
    decreases |mvs|
  {
    mvs == [] || (FailsBy(w, mvs[0]) && FailsAlong(AfterMove(w, mvs[0]), mvs[1..]))
  }

  /** A drained run with this many failures. */
  predicate FailsTimes(w: Wired, mvs: seq<Move>, n: nat) {
    && CanMoves(w, mvs) && FailsAlong(w, mvs)
    && Failures(StepsOf(mvs)) == n && MovesFrom(w, mvs).b.pend == []
  }

  ghost predicate CanFail(w: Wired, n: nat) {
    exists mvs :: FailsTimes(w, mvs, n)
  }

  function CountOf(mv: Move): nat {
    if mv.Take? && IsFailure(mv.step) then 1 else 0
  }

  lemma FailsLater(w: Wired, mv: Move, n: nat)
    requires CanMove(w, mv) && FailsBy(w, mv) && n >= CountOf(mv) && CanFail(AfterMove(w, mv), n - CountOf(mv))
    ensures CanFail(w, n)
  {
    hide CanMove, AfterMove, FailsBy;
    var rest :| FailsTimes(AfterMove(w, mv), rest, n - CountOf(mv));
    var mvs := [mv] + rest;
    assert mvs[1..] == rest;
    if mv.Take? {
      assert StepsOf(mvs)[1..] == StepsOf(rest);
    }
    assert FailsTimes(w, mvs, n);
  }

  lemma {:induction false} FailingIsSettled(w: Wired, mvs: seq<Move>)
    requires CanMoves(w, mvs) && FailsAlong(w, mvs)
    ensures CanRun(w.b, StepsOf(mvs)) && KeepsFailing(w.b, StepsOf(mvs))
    ensures RunFrom(w.b, StepsOf(mvs)) == MovesFrom(w, mvs).b
    decreases |mvs|
  {
    hide After, CanStep, LineAfter, CanTake, FailsToConnect;
    if mvs != [] {
      MoveIsStep(w, mvs[0]);
      FailingIsSettled(AfterMove(w, mvs[0]), mvs[1..]);
      if mvs[0].Take? {
        assert StepsOf(mvs)[1..] == StepsOf(mvs[1..]);
      }
    }
  }

  // ---------------------------------------------------------------- one failure

  /** The TV is seen if pings can tell, and the file tells nothing. */
  function Seen(m: Manager): Env {
    EnvWith(Pings(m), false, Unreadable)
  }

  /** Connecting with a retry to follow a failure: with both settings on, or with the
      second alone after a session. */
  predicate Retrying(m: Manager) {
    && AutoReconnect(m) && CanAttempt(m) && m.wsUrl.Some?
    && (if InitialConnectRetries(m) then m.reconnect.flow == Active else m.sessions > 0 && !m.manualDisconnect)
  }

  predicate Failable(w: Wired) {
    WiredInv(w) && w.b.pend == [] && w.b.fsm.Connecting? && w.line == NEW_HANDLER && Retrying(w.b.m)
  }

  lemma SeenIsPlausible(m: Manager)
    ensures Plausible(m, Seen(m)) && Refuses(Seen(m))
    ensures CanAttempt(m) ==> MayReconnect(m, Seen(m)) && SeesTv(m, Seen(m))
  {
  }

  /** Idle is said and read. */
  lemma SaysIdle(w: Wired, n: nat)
    requires Failable(w)
    requires CanFail(Wired(w.b, Line(Dialling, [], Dialling, true)), n)
    ensures CanFail(w, n)
  {
    var env := Seen(w.b.m);
    SeenIsPlausible(w.b.m);
    HearNow(w, WsIdle, env);
    IdleChangesNothing(w.b, env);
    hide Failable, WiredInv, CanMove, CanFail;
    var said := AfterMove(w, Speak(WsIdle));
    FailsLater(said, Take(HandleExternal(FromWs(WsIdle), env), []), n);
    FailsLater(w, Speak(WsIdle), n);
  }

  /** The failed manager, its handler to be awaited. */
  predicate Failed(w: Wired, m: Manager) {
    && WiredInv(w) && w.b.fsm == Disconnected && w.b.pend == [Emitted(HandleConnectError)]
    && w.b.m == OptionallyPrepareForReconnect(m, Seen(m).firstLoad, Seen(m).secondLoad).(status := Disconnected)
    && w.line == Line(Ended, [], Ended, true)
  }

  /** Where a failure leaves it, once the machine's new state is read. */
  function FailedFrom(m: Manager): Wired {
    Wired(Settled(
      OptionallyPrepareForReconnect(m, Seen(m).firstLoad, Seen(m).secondLoad).(status := Disconnected),
      Disconnected, [Emitted(HandleConnectError)]), Line(Ended, [], Ended, true))
  }

  /** The failure is said and read. */
  lemma SaysFailureFirst(w: Wired)
    requires WiredInv(w) && w.b.pend == [] && w.b.fsm.Connecting? && w.line == Line(Dialling, [], Dialling, true)
    ensures var env := Seen(w.b.m);
      var hear := Take(HandleExternal(FromWs(WsConnectError), env), []);
      && CanMove(w, Speak(WsConnectError)) && CanMove(AfterMove(w, Speak(WsConnectError)), hear)
      && AfterMove(w, Speak(WsConnectError)).b == w.b
      && var t := AfterMove(AfterMove(w, Speak(WsConnectError)), hear);
      && WiredInv(t) && t.b.fsm == Disconnected && t.b.pend == [NewState(Disconnected), Emitted(HandleConnectError)]
      && t.b.m == OptionallyPrepareForReconnect(w.b.m, env.firstLoad, env.secondLoad)
      && t.line == Line(Ended, [], Ended, true)
  {
    var env := Seen(w.b.m);
    SeenIsPlausible(w.b.m);
    HearNow(w, WsConnectError, env);
    MoveKeeps(w, Speak(WsConnectError));
    var said := AfterMove(w, Speak(WsConnectError));
    FailureReported(w.b, env, env);
    hide WiredInv, After, OptionallyPrepareForReconnect, Plausible;
    MoveKeeps(said, Take(HandleExternal(FromWs(WsConnectError), env), []));
  }

  /** ... and so is the machine's new state. */
  lemma SaysFailure(w: Wired, n: nat)
    requires WiredInv(w) && w.b.pend == [] && w.b.fsm.Connecting? && w.line == Line(Dialling, [], Dialling, true)
    requires CanAttempt(w.b.m) && n > 0
    ensures Failed(FailedFrom(w.b.m), w.b.m)
    ensures CanFail(FailedFrom(w.b.m), n - 1) ==> CanFail(w, n)
  {
    var env := Seen(w.b.m);
    var hear := Take(HandleExternal(FromWs(WsConnectError), env), []);
    SeenIsPlausible(w.b.m);
    SaysFailureFirst(w);
    PreparedFrame(w.b.m, env);
    var said := AfterMove(w, Speak(WsConnectError));
    var t := AfterMove(said, hear);
    assert Plausible(t.b.m, env);
    hide WiredInv, CanFail, OptionallyPrepareForReconnect, Plausible, CanMove, AfterMove;
    ReadsFailure(t, env);
    if CanFail(FailedFrom(w.b.m), n - 1) {
      FailsLater(t, Take(HandleUpdate(env), []), n - 1);
      FailsLater(said, hear, n);
      FailsLater(w, Speak(WsConnectError), n);
    }
  }

  lemma ReadsFailure(w: Wired, env: Env)
    requires WiredInv(w) && w.b.pend == [NewState(Disconnected), Emitted(HandleConnectError)] && w.b.fsm == Disconnected
    requires Plausible(w.b.m, env) && Refuses(env)
    ensures var mv := Take(HandleUpdate(env), []);
      && CanMove(w, mv) && WiredInv(AfterMove(w, mv))
      && AfterMove(w, mv) == Wired(Settled(w.b.m.(status := Disconnected), Disconnected, [Emitted(HandleConnectError)]), w.line)
  {
    var mv := Take(HandleUpdate(env), []);
    assert w.b.m.outbox == [] && w.b.m.running;
    NothingSent(w.b.m.(status := Disconnected), Disconnected, w.b.pend[1..]);
    assert w.line.inbox + [] == w.line.inbox;
    hide Plausible, Refuses;
    assert CanMove(w, mv);
    MoveKeeps(w, mv);
  }

  // -------------------------------------------------------------------- the retry

  /** What a retry leaves to be read. */
  function Redialled(url: Url): seq<Update> {
    [NewState(Disconnected), NewState(Connecting(url)), Emitted(ConnectToTv(url))]
  }

  predicate Redialling(w: Wired, url: Url) {
    && WiredInv(w) && w.b.fsm == Connecting(url) && Retrying(w.b.m)
    && w.b.pend == Redialled(url)
  }

  /** What handling the failure makes of the manager. */
  lemma RetryFacts(w: Wired, m: Manager)
    requires Failed(w, m) && Retrying(m) && m.reconnect.flow != Cancelled
    ensures var r := OnOutput(w.b.m, HandleConnectError, Seen(w.b.m));
      && m.connection.Some? && m.connection.value.wsUrl.Some?
      && r.outbox == [Reset, Connect(m.connection.value.wsUrl.value)]
      && r.ws.joinHandle.None? && Retrying(r.(outbox := []))
      && w.b.m.running && w.b.m.ws.joinHandle.Some?
  {
    var env := Seen(w.b.m);
    SeenIsPlausible(w.b.m);
    SeenIsPlausible(m);
    HandlingIsPlaced(w, HandleConnectError);
    PreparedFrame(m, Seen(m));
    PreparedCount(m, Seen(m));
    assert w.b.m.connection.value.wsUrl.Some? && w.b.m.running && Common(w.b.m) && w.b.m.outbox == [];
    hide WiredInv, OptionallyPrepareForReconnect, Handling, Common, OnOutput;
    assert Common(w.b.m);
    FailureRetried(w.b.m, env);
    RetryDrops(w.b.m, env);
  }

  /** The step of a failure that is dialled again, its handler awaited. */
  lemma RedialsBy(w: Wired, env: Env, url: Url)
    requires WiredInv(w) && w.b.fsm == Disconnected && w.b.pend == [Emitted(HandleConnectError)]
    requires w.b.m.running && Plausible(w.b.m, env) && Refuses(env) && w.line == Line(Ended, [], Ended, true)
    requires var r := OnOutput(w.b.m, HandleConnectError, env);
      r.outbox == [Reset, Connect(url)] && r.ws.joinHandle.None?
    ensures var mv := Take(HandleUpdate(env), []);
      && CanMove(w, mv)
      && var t := AfterMove(w, mv);
      && WiredInv(t) && t.b.m == OnOutput(w.b.m, HandleConnectError, env).(outbox := [])
      && t.b.fsm == Connecting(url) && t.b.pend == Redialled(url)
  {
    hide WiredInv, OnOutput, Plausible, Refuses;
    assert SaysAll(Ended, []) == Some(Ended);
    assert CanMove(w, Take(HandleUpdate(env), []));
    MoveKeeps(w, Take(HandleUpdate(env), []));
    RedialsFrom(OnOutput(w.b.m, HandleConnectError, env), url);
  }

  lemma RedialsFailure(w: Wired, m: Manager)
    requires Failed(w, m) && Retrying(m) && m.reconnect.flow != Cancelled
    ensures var mv := Take(HandleUpdate(Seen(w.b.m)), []);
      && CanMove(w, mv) && m.connection.Some? && m.connection.value.wsUrl.Some?
      && Redialling(AfterMove(w, mv), m.connection.value.wsUrl.value)
  {
    RetryFacts(w, m);
    SeenIsPlausible(w.b.m);
    hide WiredInv, OnOutput, OptionallyPrepareForReconnect, Plausible, Refuses, Seen, Retrying, CanMove, AfterMove;
    RedialsBy(w, Seen(w.b.m), m.connection.value.wsUrl.value);
  }

  lemma HandlesFailure(w: Wired, m: Manager, n: nat)
    requires Failed(w, m) && Retrying(m) && m.reconnect.flow != Cancelled
    ensures var mv := Take(HandleUpdate(Seen(w.b.m)), []);
      && CanMove(w, mv) && m.connection.Some? && m.connection.value.wsUrl.Some?
      && Redialling(AfterMove(w, mv), m.connection.value.wsUrl.value)
      && (CanFail(AfterMove(w, mv), n) ==> CanFail(w, n))
  {
    var mv := Take(HandleUpdate(Seen(w.b.m)), []);
    RedialsFailure(w, m);
    SeenIsPlausible(w.b.m);
    PreparedFrame(m, Seen(m));
    assert FailsBy(w, mv) && CountOf(mv) == 0;
    hide WiredInv, CanFail, Failed, Redialling, CanMove, AfterMove, FailsBy, Seen;
    if CanFail(AfterMove(w, mv), n) {
      FailsLater(w, mv, n);
    }
  }

  lemma RetryDrops(m: Manager, env: Env)
    requires m.outbox == [] && m.link == Open && m.status == Disconnected
    ensures var r := OnOutput(m, HandleConnectError, env);
      r.ws.joinHandle.None? && r.checker.operational == m.checker.operational && (Pings(m) ==> Pings(r))
  {
    var m1 := ForceReset(m, env.answer.disk);
    assert m1.ws.joinHandle.None? && m1.checker == m.checker;
    AttemptPings(m1, env);
    hide ForceReset, InitiateReconnect;
  }

  lemma RetryPings(m: Manager, c: Connection)
    ensures var r := Retry(m, c, false);
      r.ws == m.ws && r.checker.operational == m.checker.operational && (Pings(m) ==> Pings(r))
  {
  }

  lemma AttemptPings(m: Manager, env: Env)
    ensures var r := InitiateReconnect(m, false, env);
      && (m.ws.joinHandle.None? ==> r.ws.joinHandle.None?) && r.checker.operational == m.checker.operational
      && (Pings(m) ==> Pings(r))
  {
    var m1 := SetFlow(SetFlow(m, Active), Inactive);
    assert ForceReset(m1, env.resetDisk).checker == m.checker && ForceReset(m1, env.resetDisk).ws.joinHandle.None?;
    if m.connection.Some? {
      RetryPings(SetFlow(m, Active), m.connection.value);
    }
    hide ForceReset, Retry;
  }

  lemma RedialsFrom(r: Manager, url: Url)
    requires r.outbox == [Reset, Connect(url)]
    ensures Deliver(r, Disconnected, []) == Settled(r.(outbox := []), Connecting(url), Redialled(url))
  {
    assert r.outbox == [Reset] + [Connect(url)];
    RunAppend(Disconnected, [Reset], [Connect(url)]);
    RunOne(Disconnected, Reset);
    RunOne(Disconnected, Connect(url));
    assert [] + ([NewState(Disconnected)] + [NewState(Connecting(url)), Emitted(ConnectToTv(url))]) == Redialled(url);
  }

  lemma ReadsNext(w: Wired)
    requires WiredInv(w) && w.b.pend != [] && w.b.pend[0].NewState? && CanAttempt(w.b.m)
    ensures var mv := Take(HandleUpdate(Seen(w.b.m)), []);
      && CanMove(w, mv) && FailsBy(w, mv) && CountOf(mv) == 0
      && AfterMove(w, mv) == Wired(Settled(w.b.m.(status := w.b.pend[0].state), w.b.fsm, w.b.pend[1..]), w.line)
      && WiredInv(AfterMove(w, mv))
  {
    var mv := Take(HandleUpdate(Seen(w.b.m)), []);
    SeenIsPlausible(w.b.m);
    assert w.b.m.outbox == [] && w.b.m.running;
    NothingSent(w.b.m.(status := w.b.pend[0].state), w.b.fsm, w.b.pend[1..]);
    assert w.line.inbox + [] == w.line.inbox;
    hide Plausible, Refuses;
    assert CanMove(w, mv);
    MoveKeeps(w, mv);
  }

  lemma StartsAgain(w: Wired, url: Url)
    requires WiredInv(w) && w.b.pend == [Emitted(ConnectToTv(url))] && CanAttempt(w.b.m)
    ensures var mv := Take(HandleUpdate(Seen(w.b.m)), []);
      && CanMove(w, mv) && FailsBy(w, mv) && CountOf(mv) == 0
      && AfterMove(w, mv) == Wired(Settled(StartWebSocketHandler(w.b.m, url), w.b.fsm, []), NEW_HANDLER)
      && WiredInv(AfterMove(w, mv))
  {
    var mv := Take(HandleUpdate(Seen(w.b.m)), []);
    SeenIsPlausible(w.b.m);
    assert w.b.m.outbox == [] && w.b.m.running;
    NothingSent(StartWebSocketHandler(w.b.m, url), w.b.fsm, []);
    hide Plausible, Refuses;
    assert CanMove(w, mv);
    MoveKeeps(w, mv);
  }

  /** Two states read and the handler started, it may fail again. */
  lemma RedialsAgain(w: Wired, url: Url, n: nat) returns (t: Wired)
    requires Redialling(w, url)
    ensures Failable(t) && (CanFail(t, n) ==> CanFail(w, n))
  {
    hide WiredInv, CanFail, CanMove, FailsBy, Seen;
    ReadsNext(w);
    var s := AfterMove(w, Take(HandleUpdate(Seen(w.b.m)), []));
    ReadsNext(s);
    var r := AfterMove(s, Take(HandleUpdate(Seen(s.b.m)), []));
    StartsAgain(r, url);
    t := AfterMove(r, Take(HandleUpdate(Seen(r.b.m)), []));
    if CanFail(t, n) {
      FailsLater(r, Take(HandleUpdate(Seen(r.b.m)), []), n);
      FailsLater(s, Take(HandleUpdate(Seen(s.b.m)), []), n);
      FailsLater(w, Take(HandleUpdate(Seen(w.b.m)), []), n);
    }
  }

  lemma FailableFacts(w: Wired)
    requires Failable(w)
    ensures w.b.m.reconnect.flow != Cancelled && w.b.pend == [] && w.b.fsm.Connecting? && Retrying(w.b.m)
    ensures WiredInv(Wired(w.b, Line(Dialling, [], Dialling, true)))
  {
  }

  /** The failure is handled, and the handler started again. */
  lemma RetriesOnce(failed: Wired, m: Manager, n: nat) returns (again: Wired)
    requires Failed(failed, m) && Retrying(m) && m.reconnect.flow != Cancelled
    ensures Failable(again) && (CanFail(again, n) ==> CanFail(failed, n))
  {
    hide WiredInv, Failable, CanFail, CanMove, AfterMove, Retrying, Redialling, Seen, Failed;
    HandlesFailure(failed, m, n);
    var redialling := AfterMove(failed, Take(HandleUpdate(Seen(failed.b.m)), []));
    again := RedialsAgain(redialling, m.connection.value.wsUrl.value, n);
  }

  lemma FailsOnce(w: Wired, n: nat) returns (again: Wired)
    requires Failable(w) && n > 0
    ensures Failable(again) && (CanFail(again, n - 1) ==> CanFail(w, n))
  {
    FailableFacts(w);
    assert CanAttempt(w.b.m);
    hide WiredInv, Failable, CanFail, Retrying, Failed, FailedFrom;
    SaysFailure(Wired(w.b, Line(Dialling, [], Dialling, true)), n);
    again := RetriesOnce(FailedFrom(w.b.m), w.b.m, n - 1);
    if CanFail(again, n - 1) {
      SaysIdle(w, n);
    }
  }

  /** From such a state connecting can fail any number of times. */
  lemma {:induction false} FailsAnyTimes(w: Wired, n: nat)
    requires Failable(w)
    ensures CanFail(w, n)
    decreases n
  {
    hide Failable;
    if n == 0 {
      assert w.b.pend == [] by { FailableFacts(w); }
      assert FailsTimes(w, [], 0);
    } else {
      var again := FailsOnce(w, n);
      FailsAnyTimes(again, n - 1);
    }
  }
}
