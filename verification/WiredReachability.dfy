/** What is reached from a start with the handlers, for any connection that can be
    asked for. */
module WiredReachability {
  import opened Wrappers
  import opened StateMachine
  import opened ManagerModel
  import opened Async
  import opened Drained
  import opened DrainedInvariant
  import opened DrainedSteps
  import opened DrainedFinality
  import opened DrainedLoss
  import opened DrainedRequests
  import opened HandlerLine
  import opened Wired
  import opened WiredSteps
  import opened WiredDialling
  import opened WiredProperties
  import opened WiredReconnect
  import DP = DrainedProperties
  import DR = DrainedReachability

  predicate MoveWithin(w: Wired, mv: Move, offered: set<Connection>) {
    mv.Take? ==> Within(w.b.m, mv.step, offered)
  }

  /** Every request accepted is for a connection offered. */
  predicate MovesWithin(w: Wired, mvs: seq<Move>, offered: set<Connection>)
    requires CanMoves(w, mvs)
    decreases |mvs|
  {
    mvs == [] || (MoveWithin(w, mvs[0], offered) && MovesWithin(AfterMove(w, mvs[0]), mvs[1..], offered))
  }

  /** Reached with the checker started or not, and only these connections offered. */
  ghost predicate Reached(w: Wired, operational: bool, offered: set<Connection>) {
    exists created, started, mvs ::
      && CanMoves(StartWired(created, started, operational), mvs)
      && w == MovesFrom(StartWired(created, started, operational), mvs)
      && MovesWithin(StartWired(created, started, operational), mvs, offered)
  }

  ghost predicate Reachable(w: Wired) {
    exists operational, offered :: Reached(w, operational, offered)
  }

  lemma {:induction false} MovesConcat(w: Wired, mvs: seq<Move>, mv: Move, offered: set<Connection>)
    requires CanMoves(w, mvs) && CanMove(MovesFrom(w, mvs), mv)
    requires MovesWithin(w, mvs, offered) && MoveWithin(MovesFrom(w, mvs), mv, offered)
    ensures CanMoves(w, mvs + [mv]) && MovesFrom(w, mvs + [mv]) == AfterMove(MovesFrom(w, mvs), mv)
    ensures MovesWithin(w, mvs + [mv], offered)
    decreases |mvs|
  {
    hide CanMove, AfterMove, MoveWithin;
    if mvs == [] {
      assert [] + [mv] == [mv] && [mv][1..] == [];
      assert MovesFrom(AfterMove(w, mv), []) == AfterMove(w, mv);
      assert MovesWithin(AfterMove(w, mv), [], offered);
    } else {
      Front(mvs, [mv]);
      MovesConcat(AfterMove(w, mvs[0]), mvs[1..], mv, offered);
    }
  }

  lemma ReachMore(w: Wired, mv: Move, operational: bool, offered: set<Connection>)
    requires Reached(w, operational, offered) && WiredInv(w) && CanMove(w, mv) && MoveWithin(w, mv, offered)
    ensures Reached(AfterMove(w, mv), operational, offered) && WiredInv(AfterMove(w, mv))
  {
    MoveKeeps(w, mv);
    hide CanMove, AfterMove, StartWired, WiredInv, MoveWithin, CanMoves, MovesFrom, MovesWithin;
    var created, started, mvs :|
      && CanMoves(StartWired(created, started, operational), mvs)
      && w == MovesFrom(StartWired(created, started, operational), mvs)
      && MovesWithin(StartWired(created, started, operational), mvs, offered);
    MovesConcat(StartWired(created, started, operational), mvs, mv, offered);
    assert AfterMove(w, mv) == MovesFrom(StartWired(created, started, operational), mvs + [mv]);
  }

  /** Main result: whatever is reached with the handlers is a state some run to
      completion of the asynchronous system settles in. */
  lemma ReachableIsReached(w: Wired)
    requires Reachable(w)
    ensures exists s: System :: DP.Reached(s) && s.queue == [] && Settle(s) == w.b
  {
    var operational: bool, offered: set<Connection> :| Reached(w, operational, offered);
    var created, started, mvs :|
      && CanMoves(StartWired(created, started, operational), mvs)
      && w == MovesFrom(StartWired(created, started, operational), mvs)
      && MovesWithin(StartWired(created, started, operational), mvs, offered);
    var start := Start(created, started, operational);
    assert start.queue == [];
    DP.StartSettles(created, started, operational);
    MovesAreSteps(StartWired(created, started, operational), mvs);
    hide Start, Settle, Inv, CanMove, AfterMove, MovesWithin;
    var taken := DR.Taking(start, StepsOf(mvs));
    assert DP.Reached(Run(start, taken));
  }

  // ------------------------------------------------------------- reading a message

  /** The handler says something, and the manager reads it at once. */
  lemma HearNow(w: Wired, u: WsUpdate, env: Env)
    requires DrainedWired(w) && w.line.inbox == [] && w.b.fsm != Disconnected && Says(w.line.stage, u).Some?
    requires Plausible(w.b.m, env)
    ensures var said, read := Speak(u), Take(HandleExternal(FromWs(u), env), []);
      && CanMove(w, said) && CanMove(AfterMove(w, said), read)
      && var t := AfterMove(AfterMove(w, said), read);
      && t.line == Line(Says(w.line.stage, u).value, [], Says(w.line.stage, u).value, true)
      && CanStep(w.b, HandleExternal(FromWs(u), env)) && t.b == After(w.b, HandleExternal(FromWs(u), env))
  {
    HandlerHeard(w);
    HearingSends(w.b.m, u, env);
    var s := AfterMove(w, Speak(u));
    assert s.b == w.b && [] + [u] == [u];
    assert s.line == Line(w.line.heard, [u], Says(w.line.stage, u).value, w.line.open);
    assert w.line.heard == w.line.stage && w.line.open;
    assert [u][1..] == [] && [u][1..] + [] == [];
    hide OnWs, WiredInv, After;
  }

  lemma HandleOne(w: Wired, env: Env)
    requires WiredInv(w) && w.b.pend != [] && Plausible(w.b.m, env) && (!w.line.open ==> Refuses(env))
    requires var r := OnUpdate(w.b.m, w.b.pend[0], env); r.outbox == [] && (r.ws.joinHandle == w.b.m.ws.joinHandle)
    requires !(w.b.pend[0].Emitted? && w.b.pend[0].output.ConnectToTv?)
    ensures var mv := Take(HandleUpdate(env), []);
      CanMove(w, mv) && AfterMove(w, mv) == Wired(Settled(OnUpdate(w.b.m, w.b.pend[0], env), w.b.fsm, w.b.pend[1..]), w.line)
  {
    NothingSent(OnUpdate(w.b.m, w.b.pend[0], env), w.b.fsm, w.b.pend[1..]);
    assert w.line.inbox + [] == w.line.inbox;
    hide OnUpdate;
  }

  // ------------------------------------------------------------------- the scene

  /** A checker started or not, the connections offered, the one asked for now, and
      whether it is to be pinged; and whether a disconnect is still taken as asked for,
      and a volume as heard. */
  datatype Scene = Scene(
    operational: bool,
    offered: set<Connection>,
    target: Connection,
    pinged: bool,
    manual: bool,
    initialized: bool)

  predicate Fits(sc: Scene) {
    sc.target in sc.offered && sc.target.wsUrl.Some?
  }

  predicate Aimed(m: Manager, sc: Scene) {
    && m.connection == Some(sc.target) && m.checker.operational == sc.operational
    && (sc.pinged ==> m.checker.pingTarget)
    && m.wsUrl.Some? && m.manualDisconnect == sc.manual && m.initialized == sc.initialized
  }

  ghost predicate Staged(w: Wired, sc: Scene) {
    Reached(w, sc.operational, sc.offered) && WiredInv(w) && Aimed(w.b.m, sc)
  }

  /** Drained, with nothing left to read. */
  ghost predicate At(w: Wired, sc: Scene, stage: Stage) {
    Staged(w, sc) && w.b.pend == [] && w.line == Line(stage, [], stage, true)
  }

  /** Where a connection can be asked for. */
  ghost predicate Askable(w: Wired, sc: Scene) {
    && Reached(w, sc.operational, sc.offered) && DrainedWired(w) && w.b.fsm == Disconnected && Fits(sc)
    && w.b.m.checker.operational == sc.operational
    && (sc.pinged ==> sc.target.hasAddress || w.b.m.checker.pingTarget)
    && w.b.m.manualDisconnect == sc.manual && w.b.m.initialized == sc.initialized && !w.b.m.pairing
  }

  lemma StartRests(sc: Scene)
    requires Fits(sc) && (sc.pinged ==> sc.target.hasAddress) && !sc.manual && !sc.initialized
    ensures Askable(StartWired(Unreadable, Unreadable, sc.operational), sc)
    ensures StartWired(Unreadable, Unreadable, sc.operational).b.m.sessions == 0
  {
    var w := StartWired(Unreadable, Unreadable, sc.operational);
    StartIsWired(Unreadable, Unreadable, sc.operational);
    assert CanMoves(w, []) && w == MovesFrom(w, []) && MovesWithin(w, [], sc.offered);
    assert Reached(w, sc.operational, sc.offered);
  }

  // ---------------------------------------------------------------- connecting

  function AskFor(sc: Scene): Move {
    Take(HandleExternal(FromCaller(ConnectTo(sc.target)), FAR), [])
  }

  function FirstFlow(c: Connection): Flow {
    if c.settings.initialConnectRetries then Active else Inactive
  }

  lemma Asked(w: Wired, sc: Scene)
    requires Askable(w, sc)
    ensures CanMove(w, AskFor(sc)) && MoveWithin(w, AskFor(sc), sc.offered)
    ensures var t := AfterMove(w, AskFor(sc));
      var url := sc.target.wsUrl.value;
      && t.b.fsm == Connecting(url) && t.b.pend == [NewState(Connecting(url)), Emitted(ConnectToTv(url))]
      && Aimed(t.b.m, sc) && t.b.m.reconnect.flow == FirstFlow(sc.target) && !t.b.m.pairing
      && t.b.m.sessions == w.b.m.sessions && t.b.m.outbox == [] && t.b.m.running
  {
    RestFacts(w);
    EnvsArePlausible(w.b.m);
    var url := sc.target.wsUrl.value;
    var r := InitiateConnectToTv(w.b.m, sc.target);
    AskingSets(w.b.m, sc.target);
    hide Reached, WiredInv, InitiateConnectToTv, Plausible, Refuses;
    RunOne(Disconnected, Connect(url));
    assert [] + Emit(Disconnected, Connect(url)) == [NewState(Connecting(url)), Emitted(ConnectToTv(url))];
  }

  lemma AskingSets(m: Manager, c: Connection)
    requires m.status == Disconnected && m.link == Open && c.wsUrl.Some? && m.outbox == []
    ensures var r := InitiateConnectToTv(m, c);
      && r == m.(connection := Some(c), wsUrl := c.wsUrl, checker := r.checker, reconnect := r.reconnect,
                 outbox := [Connect(c.wsUrl.value)])
      && r.checker == m.checker.(pingTarget := m.checker.pingTarget || c.hasAddress)
      && r.reconnect.flow == FirstFlow(c)
  {
  }

  lemma ReachConnectingFrom(rest: Wired, sc: Scene) returns (w: Wired)
    requires Askable(rest, sc)
    ensures At(w, sc, Starting) && w.b.fsm.Connecting? && w.line == NEW_HANDLER
    ensures w.b.m.reconnect.flow == FirstFlow(sc.target) && !w.b.m.pairing && w.b.m.sessions == rest.b.m.sessions
  {
    Asked(rest, sc);
    hide Reached, WiredInv, CanMove, MoveWithin, FirstFlow;
    var asked := AfterMove(rest, AskFor(sc));
    ReachMore(rest, AskFor(sc), sc.operational, sc.offered);
    w := ReachStarted(asked, sc);
  }

  /** The state is read, and the handler started. */
  lemma ReachStarted(asked: Wired, sc: Scene) returns (w: Wired)
    requires Staged(asked, sc) && asked.b.fsm.Connecting?
    requires var url := asked.b.fsm.url; asked.b.pend == [NewState(Connecting(url)), Emitted(ConnectToTv(url))]
    ensures At(w, sc, Starting) && w.b.fsm.Connecting? && w.line == NEW_HANDLER
    ensures w.b.m.reconnect == asked.b.m.reconnect && w.b.m.pairing == asked.b.m.pairing
    ensures w.b.m.sessions == asked.b.m.sessions
  {
    var url := asked.b.fsm.url;
    hide Reached, WiredInv, CanMove;
    ReadsState(asked, Connecting(url), ConnectToTv(url), None);
    var read := AfterMove(asked, Take(HandleUpdate(FAR), []));
    ReachMore(asked, Take(HandleUpdate(FAR), []), sc.operational, sc.offered);
    StartsNow(read, url);
    w := AfterMove(read, Take(HandleUpdate(FAR), []));
    ReachMore(read, Take(HandleUpdate(FAR), []), sc.operational, sc.offered);
  }

  lemma StartsNow(w: Wired, url: Url)
    requires WiredInv(w) && w.b.pend == [Emitted(ConnectToTv(url))]
    ensures var mv := Take(HandleUpdate(FAR), []);
      && CanMove(w, mv)
      && AfterMove(w, mv) == Wired(Settled(StartWebSocketHandler(w.b.m, url), w.b.fsm, []), NEW_HANDLER)
  {
    EnvsArePlausible(w.b.m);
    assert w.b.m.running && w.b.m.outbox == [];
    hide WiredInv, Plausible, Refuses;
    NothingSent(StartWebSocketHandler(w.b.m, url), w.b.fsm, []);
  }

  lemma ReachConnecting(sc: Scene) returns (w: Wired)
    requires Fits(sc) && (sc.pinged ==> sc.target.hasAddress) && !sc.manual && !sc.initialized
    ensures At(w, sc, Starting) && w.b.fsm.Connecting? && w.line == NEW_HANDLER
    ensures w.b.m.reconnect.flow == FirstFlow(sc.target) && !w.b.m.pairing && w.b.m.sessions == 0
  {
    StartRests(sc);
    hide Askable, At, StartWired, FirstFlow;
    w := ReachConnectingFrom(StartWired(Unreadable, Unreadable, sc.operational), sc);
  }

  // ------------------------------------------------- a message, and what it emits

  /** A message read when nothing else is to be read. */
  lemma ReachHeard(w: Wired, sc: Scene, stage: Stage, u: WsUpdate, env: Env) returns (t: Wired)
    requires At(w, sc, stage) && w.b.fsm != Disconnected && Says(stage, u).Some? && Plausible(w.b.m, env)
    ensures Reached(t, sc.operational, sc.offered) && WiredInv(t)
    ensures t.line == Line(Says(stage, u).value, [], Says(stage, u).value, true)
    ensures CanStep(w.b, HandleExternal(FromWs(u), env)) && t.b == After(w.b, HandleExternal(FromWs(u), env))
  {
    HearNow(w, u, env);
    hide WiredInv, Reached, CanMove, AfterMove, After, Aimed;
    ReachMore(w, Speak(u), sc.operational, sc.offered);
    t := AfterMove(AfterMove(w, Speak(u)), Take(HandleExternal(FromWs(u), env), []));
    ReachMore(AfterMove(w, Speak(u)), Take(HandleExternal(FromWs(u), env), []), sc.operational, sc.offered);
  }

  /** A message that makes the machine emit one output, up to handling that output. */
  lemma ReachEmitted(w: Wired, sc: Scene, stage: Stage, u: WsUpdate, env: Env, o: Output) returns (t: Wired)
    requires At(w, sc, stage) && w.b.fsm != Disconnected && Says(stage, u).Some? && Plausible(w.b.m, env)
    requires var sent := OnWs(w.b.m, u, env).outbox;
      |sent| == 1 && Emit(w.b.fsm, sent[0]) == [NewState(Next(w.b.fsm, sent[0])), Emitted(o)]
    ensures var r := OnWs(w.b.m, u, env);
      var s := Next(w.b.fsm, r.outbox[0]);
      && Reached(t, sc.operational, sc.offered) && WiredInv(t)
      && t == Wired(Settled(r.(outbox := [], status := s), s, [Emitted(o)]),
                    Line(Says(stage, u).value, [], Says(stage, u).value, true))
  {
    var heard := ReachHeard(w, sc, stage, u, env);
    var r := OnWs(w.b.m, u, env);
    assert r.outbox == [r.outbox[0]];
    var s := Next(w.b.fsm, r.outbox[0]);
    RunOne(w.b.fsm, r.outbox[0]);
    assert [] + [NewState(s), Emitted(o)] == [NewState(s), Emitted(o)];
    assert heard.b == Settled(r.(outbox := []), s, [NewState(s), Emitted(o)]);
    hide OnWs, Reached, WiredInv, CanMove, Emit, Next, At;
    ReadsState(heard, s, o, None);
    t := AfterMove(heard, Take(HandleUpdate(FAR), []));
    ReachMore(heard, Take(HandleUpdate(FAR), []), sc.operational, sc.offered);
  }

  lemma ReachHandled(w: Wired, sc: Scene, o: Output, env: Env) returns (t: Wired)
    requires Reached(w, sc.operational, sc.offered) && WiredInv(w) && w.b.pend == [Emitted(o)] && !o.ConnectToTv?
    requires Plausible(w.b.m, env) && w.line.open
    requires var r := OnOutput(w.b.m, o, env); r.outbox == [] && r.ws.joinHandle == w.b.m.ws.joinHandle
    ensures Reached(t, sc.operational, sc.offered) && DrainedWired(t)
    ensures t == Wired(Settled(OnOutput(w.b.m, o, env), w.b.fsm, []), w.line)
  {
    hide Reached, WiredInv, CanMove, OnOutput;
    HandleOne(w, env);
    t := AfterMove(w, Take(HandleUpdate(env), []));
    ReachMore(w, Take(HandleUpdate(env), []), sc.operational, sc.offered);
  }

  lemma DrainedFacts(w: Wired)
    requires DrainedWired(w)
    ensures w.b.m.outbox == [] && w.b.m.link == Open
  {
  }

  lemma ReachDialling(start: Wired, sc: Scene) returns (w: Wired)
    requires At(start, sc, Starting) && start.b.fsm.Connecting?
    ensures At(w, sc, Dialling) && w.b == start.b
  {
    EnvsArePlausible(start.b.m);
    DrainedFacts(start);
    hide Reached, WiredInv, CanMove;
    w := ReachHeard(start, sc, Starting, WsIdle, FAR);
    NothingSent(start.b.m, start.b.fsm, []);
  }

  // ------------------------------------------------------------- a failed connect

  lemma ReachFailed(start: Wired, sc: Scene, env: Env) returns (w: Wired)
    requires At(start, sc, Starting) && start.b.fsm.Connecting? && Plausible(start.b.m, env)
    ensures Staged(w, sc) && w.b.pend == [Emitted(HandleConnectError)] && w.b.fsm == Disconnected
    ensures w.b.m == Preparing(start.b.m, env).(status := Disconnected)
    ensures w.line == Line(Ended, [], Ended, true)
  {
    var dialling := ReachDialling(start, sc);
    assert Says(Dialling, WsConnectError) == Some(Ended);
    hide Reached, WiredInv, OnWs, Emit, Preparing, Next, Says;
    DrainedFacts(dialling);
    ConnectErrorHeard(dialling.b.m, env);
    FailureEmits(dialling.b.fsm);
    w := ReachEmitted(dialling, sc, Dialling, WsConnectError, env, HandleConnectError);
  }

  lemma ConnectErrorHeard(m: Manager, env: Env)
    requires m.link == Open && m.outbox == []
    ensures OnWs(m, WsConnectError, env) == SendToFsm(Preparing(m, env), Error)
    ensures Preparing(m, env).link == Open && Preparing(m, env) == m.(reconnect := Preparing(m, env).reconnect)
  {
  }

  /** The failure is handled without a retry. */
  lemma ReachAbandoned(failed: Wired, sc: Scene) returns (w: Wired)
    requires Staged(failed, sc) && failed.b.pend == [Emitted(HandleConnectError)] && failed.b.fsm == Disconnected
    requires failed.line == Line(Ended, [], Ended, true)
    requires failed.b.m.reconnect.flow != Active || sc.operational
    requires !sc.manual && !sc.initialized
    ensures Reached(w, sc.operational, sc.offered) && DrainedWired(w) && w.b.fsm == Disconnected && w.line.inbox == []
    ensures w.b.m.reconnect.flow == Active <==> failed.b.m.reconnect.flow == Active
    ensures w.b.m.reconnect.flow == Active ==> Aimed(w.b.m, sc)
    ensures w.b.m.checker == failed.b.m.checker && !w.b.m.manualDisconnect && !w.b.m.initialized
    ensures failed.b.m.reconnect.flow == Inactive ==> !w.b.m.pairing && w.b.m.sessions == 0
  {
    Abandoned(failed);
    hide Reached, WiredInv, CanMove, OnOutput, AfterMove;
    var mv := Take(HandleUpdate(FAR), []);
    var reset := AfterMove(failed, mv);
    ReachMore(failed, mv, sc.operational, sc.offered);
    SkipUpdate(reset, None);
    w := AfterMove(reset, mv);
    ReachMore(reset, mv, sc.operational, sc.offered);
  }

  lemma Abandoned(w: Wired)
    requires WiredInv(w) && w.b.pend == [Emitted(HandleConnectError)] && w.b.fsm == Disconnected
    requires w.line == Line(Ended, [], Ended, true) && w.b.m.wsUrl.Some?
    requires w.b.m.reconnect.flow != Active || w.b.m.checker.operational
    ensures var mv := Take(HandleUpdate(FAR), []);
      && CanMove(w, mv)
      && var t := AfterMove(w, mv);
      && t.b.pend == [NewState(Disconnected)] && t.b.fsm == Disconnected && t.line.inbox == []
      && t.b.m.checker == w.b.m.checker && t.b.m.manualDisconnect == w.b.m.manualDisconnect && !t.b.m.initialized
      && (t.b.m.reconnect.flow == Active <==> w.b.m.reconnect.flow == Active)
      && (w.b.m.reconnect.flow == Active ==> t.b.m.connection == w.b.m.connection && t.b.m.wsUrl.Some?)
      && (w.b.m.reconnect.flow == Inactive ==> !t.b.m.pairing && t.b.m.sessions == 0)
  {
    HandlingIsPlaced(w, HandleConnectError);
    EnvsArePlausible(w.b.m);
    LeavesOff(w.b.m);
    assert w.b.m.running && SaysAll(Ended, []) == Some(Ended);
    hide WiredInv, OnOutput, Plausible, Refuses;
    RunOne(Disconnected, Reset);
    assert [] + [NewState(Disconnected)] == [NewState(Disconnected)];
    assert w.line.inbox + [] == w.line.inbox;
  }

  lemma LeavesOff(m: Manager)
    requires Handling(m, Disconnected, HandleConnectError) && m.wsUrl.Some?
    requires m.reconnect.flow != Active || m.checker.operational
    ensures var r := OnOutput(m, HandleConnectError, FAR);
      && r.outbox == [Reset] && r.ws.joinHandle.None?
      && r.checker == m.checker && r.manualDisconnect == m.manualDisconnect && !r.initialized
      && (r.reconnect.flow == Active <==> m.reconnect.flow == Active)
      && (m.reconnect.flow == Active ==> r.connection == m.connection && r.wsUrl.Some?)
      && (m.reconnect.flow == Inactive ==> !r.pairing && r.sessions == 0)
  {
  }

  // ------------------------------------------------------------ a connection up

  lemma Registers(m: Manager)
    ensures var r := OnOutput(m, SendRegisterPayload, TAKEN);
      && r == m.(reconnect := r.reconnect, ws := r.ws, sessions := m.sessions + 1)
      && r.reconnect.flow == Inactive && r.ws.joinHandle == m.ws.joinHandle
  {
  }

  /** The messages that bring a connection up, each by one input. */
  lemma HearsPlainly(m: Manager)
    requires m.link == Open && m.outbox == []
    ensures OnWs(m, WsConnected, FAR) == m.(outbox := [AttemptRegister])
    ensures OnWs(m, WsPayload(PairPrompt), FAR) == m.(outbox := [Pair])
    ensures OnWs(m, WsPayload(Registered), FAR) == m.(outbox := [Initialize])
    ensures !m.initialized ==> OnWs(m, WsPayload(Volume), FAR) == m.(initialized := true, outbox := [StartCommunication])
  {
  }

  /** What the machine makes of them. */
  lemma UpwardEmits(s: State)
    ensures s.Connecting? ==>
      Next(s, AttemptRegister) == Connected(s.url) &&
      Emit(s, AttemptRegister) == [NewState(Connected(s.url)), Emitted(SendRegisterPayload)]
    ensures s.Connected? ==>
      Next(s, Pair) == Pairing(s.url) && Emit(s, Pair) == [NewState(Pairing(s.url)), Emitted(PairWithTv)]
    ensures s.Connected? || s.Pairing? ==>
      Next(s, Initialize) == Initializing(s.url) &&
      Emit(s, Initialize) == [NewState(Initializing(s.url)), Emitted(InitializeConnection)]
    ensures s.Initializing? ==>
      Next(s, StartCommunication) == Communicating(s.url) &&
      Emit(s, StartCommunication) == [NewState(Communicating(s.url))]
  {
  }

  /** The handler is connected, and the registration is to be sent. */
  lemma ReachConnected(start: Wired, sc: Scene) returns (w: Wired)
    requires At(start, sc, Starting) && start.b.fsm.Connecting?
    ensures Staged(w, sc) && w.b.fsm.Connected? && w.b.pend == [Emitted(SendRegisterPayload)]
    ensures w.line == Line(Talking, [], Talking, true) && w.b.m.pairing == start.b.m.pairing
  {
    var dialling := ReachDialling(start, sc);
    assert Says(Dialling, WsConnected) == Some(Talking);
    hide Reached, WiredInv, OnWs, Emit, Next, Says, Plausible;
    EnvsArePlausible(dialling.b.m);
    DrainedFacts(dialling);
    HearsPlainly(dialling.b.m);
    UpwardEmits(dialling.b.fsm);
    w := ReachEmitted(dialling, sc, Dialling, WsConnected, FAR, SendRegisterPayload);
  }

  /** Connected, and the registration sent. */
  lemma ReachRegistering(start: Wired, sc: Scene) returns (w: Wired)
    requires At(start, sc, Starting) && start.b.fsm.Connecting?
    ensures At(w, sc, Talking) && w.b.fsm.Connected?
    ensures w.b.m.pairing == start.b.m.pairing && w.b.m.sessions > 0
  {
    var connected := ReachConnected(start, sc);
    EnvsArePlausible(connected.b.m);
    Registers(connected.b.m);
    hide Reached, WiredInv, OnOutput;
    w := ReachHandled(connected, sc, SendRegisterPayload, TAKEN);
  }

  lemma PairsOnly(m: Manager)
    ensures OnOutput(m, PairWithTv, TAKEN) == m.(pairing := true)
  {
  }

  /** The pairing prompt is shown. */
  lemma ReachPairing(start: Wired, sc: Scene) returns (w: Wired)
    requires At(start, sc, Talking) && start.b.fsm.Connected?
    ensures At(w, sc, Talking) && w.b.fsm.Pairing? && w.b.m.pairing
  {
    assert Says(Talking, WsPayload(PairPrompt)) == Some(Talking);
    hide Reached, WiredInv, OnWs, OnOutput, Emit, Next, Says, Plausible;
    EnvsArePlausible(start.b.m);
    DrainedFacts(start);
    HearsPlainly(start.b.m);
    UpwardEmits(start.b.fsm);
    var prompted := ReachEmitted(start, sc, Talking, WsPayload(PairPrompt), FAR, PairWithTv);
    PairsOnly(prompted.b.m);
    w := ReachHandled(prompted, sc, PairWithTv, TAKEN);
  }

  /** The registration is answered. */
  lemma ReachAnswered(start: Wired, sc: Scene) returns (w: Wired)
    requires At(start, sc, Talking) && (start.b.fsm.Connected? || start.b.fsm.Pairing?)
    ensures Staged(w, sc) && w.b.fsm == Initializing(start.b.fsm.url) && w.b.pend == [Emitted(InitializeConnection)]
    ensures w.line == Line(Talking, [], Talking, true)
  {
    assert Says(Talking, WsPayload(Registered)) == Some(Talking);
    hide Reached, WiredInv, OnWs, Emit, Next, Says, Plausible;
    EnvsArePlausible(start.b.m);
    DrainedFacts(start);
    HearsPlainly(start.b.m);
    UpwardEmits(start.b.fsm);
    w := ReachEmitted(start, sc, Talking, WsPayload(Registered), FAR, InitializeConnection);
  }

  /** The registration is answered, and the queries are taken. */
  lemma ReachInitializing(start: Wired, sc: Scene) returns (w: Wired)
    requires At(start, sc, Talking) && (start.b.fsm.Connected? || start.b.fsm.Pairing?)
    ensures At(w, sc, Talking) && w.b.fsm == Initializing(start.b.fsm.url) && !w.b.m.pairing
    ensures w.b.m.lastGood == Some(sc.target)
  {
    var answered := ReachAnswered(start, sc);
    EnvsArePlausible(answered.b.m);
    InitializationTaken(answered.b.m);
    hide Reached, WiredInv, OnOutput;
    w := ReachHandled(answered, sc, InitializeConnection, TAKEN);
  }

  lemma InitializationTaken(m: Manager)
    ensures var r := OnOutput(m, InitializeConnection, TAKEN);
      && r == m.(ws := r.ws, pairing := false, lastGood := if m.connection.Some? then m.connection else m.lastGood)
      && r.ws.joinHandle == m.ws.joinHandle
  {
    QueriesTaken(m.(pairing := false), TAKEN.queryAnswers);
    hide SendQueries;
  }

  /** The first volume is read, and the machine is Communicating. */
  lemma ReachCommunicating(start: Wired, sc: Scene) returns (w: Wired)
    requires At(start, sc, Talking) && start.b.fsm.Initializing? && !sc.initialized
    ensures At(w, sc.(initialized := true), Talking) && w.b.fsm == Communicating(start.b.fsm.url)
    ensures w.b.m.lastGood == start.b.m.lastGood && w.b.m.pairing == start.b.m.pairing
  {
    var m, fsm := start.b.m, start.b.fsm;
    assert Says(Talking, WsPayload(Volume)) == Some(Talking);
    hide Reached, WiredInv, OnWs, Emit, Next, CanMove, Says, Plausible;
    EnvsArePlausible(m);
    DrainedFacts(start);
    HearsPlainly(m);
    UpwardEmits(fsm);
    var heard := ReachHeard(start, sc, Talking, WsPayload(Volume), FAR);
    RunOne(fsm, StartCommunication);
    assert [] + [NewState(Communicating(fsm.url))] == [NewState(Communicating(fsm.url))];
    assert heard.b == Settled(m.(initialized := true), Communicating(fsm.url), [NewState(Communicating(fsm.url))]);
    SkipUpdate(heard, None);
    w := AfterMove(heard, Take(HandleUpdate(FAR), []));
    ReachMore(heard, Take(HandleUpdate(FAR), []), sc.operational, sc.offered);
  }

  lemma ReachUp(sc: Scene, pairs: bool) returns (w: Wired)
    requires Fits(sc) && (sc.pinged ==> sc.target.hasAddress) && !sc.manual && !sc.initialized
    ensures At(w, sc, Talking) && (if pairs then w.b.fsm.Pairing? else w.b.fsm.Connected?) && w.b.m.pairing == pairs
    ensures w.b.m.reconnect.flow == Inactive
  {
    var start := ReachConnecting(sc);
    hide Reached, FirstFlow, Aimed;
    w := ReachRegistering(start, sc);
    if pairs {
      w := ReachPairing(w, sc);
    }
    assert Up(w.b.fsm);
    hide Common, Grounded;
  }

  // --------------------------------------------------------- a connection lost

  /** The flow a lost connection leaves, and again the shutdown. */
  predicate Prepared(m: Manager, env: Env) {
    m.reconnect.flow == if m.checker.operational && !env.firstLoad then WaitingForTvOnNetwork else Active
  }

  lemma PreparesTo(m: Manager, env: Env)
    requires !m.manualDisconnect && AutoReconnect(m) && m.reconnect.flow != Cancelled && env.firstLoad == env.secondLoad
    requires env.firstLoad ==> m.checker.operational
    ensures Preparing(m, env) == m.(reconnect := Preparing(m, env).reconnect) && Prepared(Preparing(m, env), env)
  {
  }

  lemma ClosedByTv(m: Manager, env: Env)
    requires m.link == Open && m.outbox == []
    ensures OnWs(m, WsServerClosedConnection, env) == SendToFsm(Preparing(m, env), Error)
    ensures Preparing(m, env).link == Open && Preparing(m, env).outbox == []
  {
  }

  lemma ShutsDown(m: Manager, env: Env)
    requires env.answer.sent
    ensures var r := OnOutput(m, DisconnectFromTv, env);
      && r == Preparing(m, env).(ws := r.ws) && r.ws.joinHandle == m.ws.joinHandle
  {
  }

  /** The TV closes the connection, in sight or not. */
  lemma ReachLost(start: Wired, sc: Scene, seen: bool) returns (w: Wired)
    requires At(start, sc, Talking) && Up(start.b.fsm) && sc.target.settings.autoReconnect
    requires (seen ==> sc.operational && sc.pinged) && !sc.manual
    ensures Staged(w, sc) && w.b.pend == [Emitted(DisconnectFromTv)] && w.b.fsm.Disconnecting?
    ensures w.b.m.reconnect.flow != Cancelled && w.b.m.pairing == start.b.m.pairing && w.b.m.sessions == start.b.m.sessions
    ensures w.b.m.outbox == [] && w.line == Line(Failing, [], Failing, true)
  {
    var env := EnvWith(seen, true, Unreadable);
    assert Plausible(start.b.m, env);
    assert Says(Talking, WsServerClosedConnection) == Some(Failing);
    hide Reached, WiredInv, OnWs, Emit, Preparing, Up, Next, Says, Plausible;
    UpFlow(start);
    DrainedFacts(start);
    ClosedByTv(start.b.m, env);
    PreparesTo(start.b.m, env);
    ErrorEmits(start.b.fsm);
    w := ReachEmitted(start, sc, Talking, WsServerClosedConnection, env, DisconnectFromTv);
  }

  lemma UpFlow(w: Wired)
    requires DrainedWired(w) && Up(w.b.fsm)
    ensures w.b.m.reconnect.flow == Inactive
  {
  }

  /** ... and the shutdown is under way. */
  lemma ReachClosing(lost: Wired, sc: Scene, seen: bool) returns (w: Wired)
    requires Staged(lost, sc) && lost.b.pend == [Emitted(DisconnectFromTv)] && lost.b.fsm.Disconnecting?
    requires lost.b.m.reconnect.flow != Cancelled && lost.b.m.outbox == [] && lost.line == Line(Failing, [], Failing, true)
    requires sc.target.settings.autoReconnect && (seen ==> sc.operational && sc.pinged) && !sc.manual
    ensures At(w, sc, Failing) && w.b.fsm.Disconnecting?
    ensures w.b.m.pairing == lost.b.m.pairing && w.b.m.sessions == lost.b.m.sessions
    ensures w.b.m.reconnect.flow == if sc.operational && !seen then WaitingForTvOnNetwork else Active
  {
    var env := EnvWith(seen, true, Unreadable);
    ShutsDown(lost.b.m, env);
    PreparesTo(lost.b.m, env);
    hide Reached, WiredInv, OnOutput, Preparing;
    w := ReachHandled(lost, sc, DisconnectFromTv, env);
  }
}
