/** Every move of the wired system keeps its invariant. */
module WiredSteps {
  import opened Wrappers
  import opened StateMachine
  import opened ManagerModel
  import opened ManagerFacts
  import opened Async
  import opened Drained
  import opened DrainedInvariant
  import opened DrainedSteps
  import opened DrainedFinality
  import opened HandlerLine
  import opened Wired

  lemma SpeakingKeeps(w: Wired, u: WsUpdate)
    requires WiredInv(w) && CanMove(w, Speak(u))
    ensures WiredInv(AfterMove(w, Speak(u)))
  {
    hide Inv, Placed;
    SaysMore(w.line.heard, w.line.inbox, [u]);
    assert [u][1..] == [];
  }

  lemma ReadingIsCoherent(line: Line)
    requires Coherent(line)
    ensures Coherent(ReadOne(line)) && ReadOne(line).stage == line.stage
    ensures line.inbox != [] ==> Says(line.heard, line.inbox[0]) == Some(ReadOne(line).heard)
    ensures line.inbox != [] ==> ReadOne(line).inbox == line.inbox[1..]
  {
  }

  lemma LineStaysCoherent(w: Wired, step: Step, farewell: seq<WsUpdate>)
    requires Coherent(w.line) && CanTake(w, step, farewell)
    ensures Coherent(LineAfter(w, step, farewell))
  {
    hide CanStep, Reacted;
    ReadingIsCoherent(w.line);
    var line := if Reads(step) then ReadOne(w.line) else w.line;
    SaysMore(line.heard, line.inbox, farewell);
    assert line.inbox + [] == line.inbox;
  }

  lemma AwaitedHasEnded(w: Wired, step: Step, farewell: seq<WsUpdate>)
    requires CanTake(w, step, farewell) && (w.b.m.ws.joinHandle.None? ==> !w.line.open)
    requires Coherent(w.line)
    ensures After(w.b, step).m.ws.joinHandle.None? ==> !LineAfter(w, step, farewell).open
  {
    ReadingIsCoherent(w.line);
    DeliverKeeps(Reacted(w.b, step), w.b.fsm, if step.HandleUpdate? then w.b.pend[1..] else []);
    if Starts(w.b, step) {
      assert Reacted(w.b, step).ws.joinHandle.Some?;
    }
    hide Reacted;
  }

  // ---------------------------------------------------------------- the position

  /** With nothing to await, the machine is where no handler can place it. */
  lemma NowhereToBe(t: Settled, heard: Stage)
    requires Inv(t) && t.m.ws.joinHandle.None?
    ensures Placed(heard, t.fsm, Tail(t.pend))
  {
  }

  lemma PlacedAfterNothing(heard: Stage, m: Manager, fsm: State)
    requires m.outbox == [] && Placed(heard, fsm, None)
    ensures Placed(heard, Deliver(m, fsm, []).fsm, Tail(Deliver(m, fsm, []).pend))
  {
    hide Placed;
    NothingSent(m, fsm, []);
  }

  lemma PlacedAfterOne(heard: Stage, m: Manager, fsm: State, i: Input)
    requires m.outbox == [i] && Placed(heard, Next(fsm, i), Tail(Emit(fsm, i)))
    ensures Placed(heard, Deliver(m, fsm, []).fsm, Tail(Deliver(m, fsm, []).pend))
  {
    hide Placed, Next, Emit, Tail;
    RunOne(fsm, i);
    assert [] + Emit(fsm, i) == Emit(fsm, i);
  }

  lemma DeliversOne(r: Manager, fsm: State)
    requires |r.outbox| <= 1
    ensures var t := Deliver(r, fsm, []);
      && t.m == r.(outbox := [])
      && (r.outbox == [] ==> t.fsm == fsm && t.pend == [])
      && (r.outbox != [] ==> t.fsm == Next(fsm, r.outbox[0]) && t.pend == Emit(fsm, r.outbox[0]))
  {
    if r.outbox == [] {
      NothingSent(r, fsm, []);
    } else {
      assert r.outbox == [r.outbox[0]];
      RunOne(fsm, r.outbox[0]);
      assert [] + Emit(fsm, r.outbox[0]) == Emit(fsm, r.outbox[0]);
    }
  }

  /** What a handler's message makes the manager send. */
  lemma HearingSends(m: Manager, u: WsUpdate, env: Env)
    requires m.link == Open && m.outbox == []
    ensures OnWs(m, u, env).ws == m.ws
    ensures var sent := OnWs(m, u, env).outbox;
      && |sent| <= 1 && (sent != [] ==> !sent[0].Connect? && !sent[0].Reset?)
      && (u.WsConnected? ==> sent == [AttemptRegister])
      && (!u.WsConnected? ==> AttemptRegister !in sent)
      && (u.WsDisconnected? ==> sent == [DisconnectionComplete])
      && (u.WsConnectError? || u.WsServerClosedConnection? || u.WsMessageReadError? ==> sent == [Error])
  {
    if u.WsPayload? {
      ResponseSendsOne(m, u.response);
    }
    PreparedOutbox(m, env);
    hide OnResponse, OptionallyPrepareForReconnect;
  }

  lemma PreparedOutbox(m: Manager, env: Env)
    ensures var r := OptionallyPrepareForReconnect(m, env.firstLoad, env.secondLoad);
      r.outbox == m.outbox && r.link == m.link && r.ws == m.ws
  {
  }

  lemma PlacedByReading(w: Wired, u: WsUpdate, env: Env, farewell: seq<WsUpdate>)
    requires WiredInv(w) && CanTake(w, HandleExternal(FromWs(u), env), farewell)
    ensures var t := AfterMove(w, Take(HandleExternal(FromWs(u), env), farewell));
      Placed(t.line.heard, t.b.fsm, Tail(t.b.pend))
  {
    ReadingIsCoherent(w.line);
    HearingSends(w.b.m, u, env);
    var heard := ReadOne(w.line).heard;
    var r := OnWs(w.b.m, u, env);
    assert AttemptRegister !in r.outbox || r.outbox == [AttemptRegister];
    PlacedAfterReading(w.line.heard, w.b.fsm, u, r.outbox);
    hide OnWs, Placed, Deliver, Next, Emit, Tail, ReadOne;
    if r.outbox == [] {
      PlacedAfterNothing(heard, r, w.b.fsm);
    } else {
      assert r.outbox == [r.outbox[0]];
      PlacedAfterOne(heard, r, w.b.fsm, r.outbox[0]);
    }
  }

  /** The caller and the network make the manager send one input at most, never a
      registration, unless no handler is left. */
  lemma AskingSends(m: Manager, msg: ManagerMessage, env: Env, fsm: State)
    requires Resting(m, fsm) && msg != ShutDownManager
    ensures var r := OnCaller(m, msg, env);
      r.ws.joinHandle.Some? ==> |r.outbox| <= 1 && AttemptRegister !in r.outbox
  {
    hide Grounded, InPhase;
    match msg
    case CallerTestConnection =>
      if m.initialized {
        SendingOrReset(m, TestConnection, env.answer);
      }
      hide SendToWs;
    case CancelReconnect =>
      ResetAwaits(SetFlow(m, Cancelled), env.answer.disk);
      hide ForceReset;
    case _ =>
  }

  lemma ResetAwaits(m: Manager, disk: Disk)
    ensures ForceReset(m, disk).ws.joinHandle.None?
  {
  }

  lemma SendingOrReset(m: Manager, w: WsMessage, a: Answer)
    ensures var r := SendToWs(m, w, a);
      if m.ws.sender.None? || a.sent
      then r.outbox == m.outbox && r.ws.joinHandle == m.ws.joinHandle && r.reconnect == m.reconnect
      else r.ws.joinHandle.None?
  {
    ResetAwaits(HandToWs(m, w), a.disk);
    hide ForceReset;
  }

  lemma NoticingSends(m: Manager, onNetwork: bool, env: Env, fsm: State)
    requires Resting(m, fsm)
    ensures var r := OnNetwork(m, onNetwork, env);
      r.ws.joinHandle.Some? ==> |r.outbox| <= 1 && AttemptRegister !in r.outbox
  {
    var m1 := SetFlow(Noticed(m, onNetwork), Active);
    ResetAwaits(SetFlow(m1, Inactive), env.resetDisk);
    hide Grounded, InPhase, ForceReset;
  }

  lemma RestIsPlaced(w: Wired)
    requires WiredInv(w) && w.b.pend == []
    ensures Inv(w.b) && Resting(w.b.m, w.b.fsm) && Placed(w.line.heard, w.b.fsm, None)
  {
  }

  lemma OutsideSends(m: Manager, ev: External, env: Env, fsm: State)
    requires Resting(m, fsm) && !ev.FromWs? && ev != FromCaller(ShutDownManager)
    ensures var r := OnExternal(m, ev, env);
      r.ws.joinHandle.Some? ==> |r.outbox| <= 1 && AttemptRegister !in r.outbox
  {
    hide Resting;
    match ev {
      case FromCaller(msg) => AskingSends(m, msg, env, fsm);
      case FromNetwork(onNetwork) => NoticingSends(m, onNetwork, env, fsm);
    }
  }

  lemma PlacedByAsking(w: Wired, ev: External, env: Env, farewell: seq<WsUpdate>)
    requires WiredInv(w) && CanTake(w, HandleExternal(ev, env), farewell) && !ev.FromWs?
    ensures var t := AfterMove(w, Take(HandleExternal(ev, env), farewell));
      Placed(t.line.heard, t.b.fsm, Tail(t.b.pend))
  {
    var step := HandleExternal(ev, env);
    var r := OnExternal(w.b.m, ev, env);
    RestIsPlaced(w);
    hide WiredInv, Inv, Placed, Deliver, Next, Emit, Tail, Resting, OnExternal;
    OutsideSends(w.b.m, ev, env, w.b.fsm);
    StepSettles(w.b, step);
    DeliverKeeps(r, w.b.fsm, []);
    if r.ws.joinHandle.None? {
      NowhereToBe(After(w.b, step), w.line.heard);
    } else if r.outbox == [] {
      PlacedAfterNothing(w.line.heard, r, w.b.fsm);
    } else {
      assert r.outbox == [r.outbox[0]];
      PlacedAfterInput(w.line.heard, w.b.fsm, r.outbox[0]);
      PlacedAfterOne(w.line.heard, r, w.b.fsm, r.outbox[0]);
    }
  }

  /** While a handler is held, handling an output other than a connect sends nothing. */
  lemma OutputSends(m: Manager, o: Output, env: Env, fsm: State)
    requires Handling(m, fsm, o) && !o.ConnectToTv? && (env.answer.sent || m.ws.sender.Some?)
    ensures var r := OnOutput(m, o, env);
      r.ws.joinHandle.Some? ==>
        r.outbox == [] && fsm != Disconnected
  {
    hide SendQueries, ForceReset, InitiateReconnect;
    match o
    case SendRegisterPayload =>
      SendingOrReset(SetFlow(m, Inactive).(sessions := m.sessions + 1), Register, env.answer);
      hide SendToWs;
    case PairWithTv =>
    case InitializeConnection => QueriesSettle(m.(pairing := false), env.queryAnswers, fsm);
    case PassCommand(c) =>
      SendingOrReset(m, Command(c), env.answer);
      hide SendToWs;
    case DisconnectFromTv =>
      PreparedOutbox(m, env);
      SendingOrReset(OptionallyPrepareForReconnect(m, env.firstLoad, env.secondLoad), ShutDown, env.answer);
      hide SendToWs, OptionallyPrepareForReconnect;
    case HandleConnectError =>
      ResetAwaits(m, env.answer.disk);
      AttemptKeepsNone(ForceReset(m, env.answer.disk), env);
    case HandleSuccessfulDisconnect =>
      AttemptKeepsNone(InitializeManagerState(AwaitHandler(m.(manualDisconnect := false)), env.answer.disk), env);
    case HandleDisconnectError =>
      AttemptKeepsNone(InitializeManagerState(AwaitHandler(m.(manualDisconnect := false)), env.answer.disk), env);
  }

  lemma AttemptKeepsNone(m: Manager, env: Env)
    ensures m.ws.joinHandle.None? ==> InitiateReconnect(m, false, env).ws.joinHandle.None?
  {
    var m1 := SetFlow(m, Active);
    ResetAwaits(SetFlow(m1, Inactive), env.resetDisk);
    hide ForceReset;
  }

  /** Before an output is handled the machine is already placed. */
  lemma HandlingIsPlaced(w: Wired, o: Output)
    requires WiredInv(w) && w.b.pend != [] && w.b.pend[0] == Emitted(o)
    ensures Handling(w.b.m, w.b.fsm, o) && w.b.pend[1..] == []
    ensures o.ConnectToTv? ==> w.b.fsm.Connecting?
    ensures !o.ConnectToTv? ==> w.b.m.ws.sender.Some?
    ensures !o.ConnectToTv? && w.b.fsm != Disconnected ==> Placed(w.line.heard, w.b.fsm, None)
  {
    LoneOutput(w.b.m.status, w.b.pend);
    assert Tail(w.b.pend) == Some(o);
    hide Tail, OwnsHandler;
  }

  lemma NewHandlerIsPlaced(m: Manager, url: Url, fsm: State)
    requires fsm.Connecting? && m.outbox == []
    ensures var t := Deliver(StartWebSocketHandler(m, url), fsm, []);
      Placed(Starting, t.fsm, Tail(t.pend))
  {
    NothingSent(StartWebSocketHandler(m, url), fsm, []);
  }

  lemma PlacedByOutput(w: Wired, o: Output, env: Env, farewell: seq<WsUpdate>)
    requires WiredInv(w) && CanTake(w, HandleUpdate(env), farewell) && w.b.pend[0] == Emitted(o)
    ensures var t := AfterMove(w, Take(HandleUpdate(env), farewell));
      Placed(t.line.heard, t.b.fsm, Tail(t.b.pend))
  {
    var r := OnOutput(w.b.m, o, env);
    HandlingIsPlaced(w, o);
    assert Inv(w.b) && w.b.m.outbox == [];
    hide Handling, Placed, Inv, Tail, Deliver, OnOutput, WiredInv;
    StepSettles(w.b, HandleUpdate(env));
    if o.ConnectToTv? {
      assert r == StartWebSocketHandler(w.b.m, o.url) by { StartsHandler(w.b.m, o, env); }
      NewHandlerIsPlaced(w.b.m, o.url, w.b.fsm);
    } else {
      OutputSends(w.b.m, o, env, w.b.fsm);
      DeliverKeeps(r, w.b.fsm, []);
      if r.ws.joinHandle.None? {
        NowhereToBe(After(w.b, HandleUpdate(env)), w.line.heard);
      } else {
        PlacedAfterNothing(w.line.heard, r, w.b.fsm);
      }
    }
  }

  lemma StartsHandler(m: Manager, o: Output, env: Env)
    requires o.ConnectToTv?
    ensures OnOutput(m, o, env) == StartWebSocketHandler(m, o.url)
  {
  }

  lemma PlacedByUpdate(w: Wired, env: Env, farewell: seq<WsUpdate>)
    requires WiredInv(w) && CanTake(w, HandleUpdate(env), farewell)
    ensures var t := AfterMove(w, Take(HandleUpdate(env), farewell));
      Placed(t.line.heard, t.b.fsm, Tail(t.b.pend))
  {
    var u := w.b.pend[0];
    if u.Emitted? {
      PlacedByOutput(w, u.output, env, farewell);
    } else {
      SkippedUpdate(w.b.m.status, w.b.pend);
      NothingSent(OnUpdate(w.b.m, u, env), w.b.fsm, w.b.pend[1..]);
    }
  }

  /** Main result: every move keeps the invariant. */
  lemma MoveKeeps(w: Wired, mv: Move)
    requires WiredInv(w) && CanMove(w, mv)
    ensures WiredInv(AfterMove(w, mv))
  {
    match mv
    case Speak(u) => SpeakingKeeps(w, u);
    case Return =>
    case Take(step, farewell) =>
      StepSettles(w.b, step);
      LineStaysCoherent(w, step, farewell);
      AwaitedHasEnded(w, step, farewell);
      hide Inv, Placed, After, LineAfter, Coherent;
      match step {
        case HandleUpdate(env) => PlacedByUpdate(w, env, farewell);
        case HandleExternal(ev, env) =>
          if ev.FromWs? {
            PlacedByReading(w, ev.update, env, farewell);
          } else {
            PlacedByAsking(w, ev, env, farewell);
          }
      }
  }

  lemma {:induction false} MovesKeep(w: Wired, mvs: seq<Move>)
    requires WiredInv(w) && CanMoves(w, mvs)
    ensures WiredInv(MovesFrom(w, mvs))
    decreases |mvs|
  {
    hide WiredInv, CanMove, AfterMove;
    if mvs != [] {
      MoveKeeps(w, mvs[0]);
      MovesKeep(AfterMove(w, mvs[0]), mvs[1..]);
    }
  }
}
