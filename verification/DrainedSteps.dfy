/** Every step of the settled system keeps its invariant. */
module DrainedSteps {
  import opened Wrappers
  import opened StateMachine
  import opened ManagerModel
  import opened ManagerFacts
  import opened Async
  import opened Drained
  import opened DrainedInvariant

  /** No handler is owed an await, and only resets have been sent so far. */
  predicate Dropped(m: Manager) {
    && Common(m) && AllResets(m.outbox)
    && m.ws.joinHandle == None
    && (m.connection.Some? ==> HasChannels(m.ws))
  }

  lemma DroppedSettles(m: Manager, fsm: State)
    requires Dropped(m) && m.status == fsm && Real(fsm) && (m.outbox == [] ==> fsm == Disconnected)
    ensures Inv(Deliver(m, fsm, []))
  {
    hide Inv, Deliver, Common;
    ResetsSettle(m, fsm);
  }

  lemma ResetDrops(m: Manager, disk: Disk)
    requires Common(m) && AllResets(m.outbox) && (m.connection.Some? ==> HasChannels(m.ws))
    ensures Dropped(ForceReset(m, disk)) && ForceReset(m, disk).outbox != []
    ensures ForceReset(m, disk).status == m.status
    ensures ForceReset(m, disk).reconnect.flow != Cancelled
  {
  }

  // --------------------------------------------------------------- reconnecting

  lemma ConnectSettles(m: Manager, c: Connection)
    requires Dropped(m) && m.status == Disconnected && c.wsUrl.Some?
    ensures Inv(Deliver(InitiateConnectToTv(m, c), Disconnected, []))
  {
    hide Inv, Deliver;
    InputSettles(InitiateConnectToTv(m, c), Disconnected, m.outbox, Connect(c.wsUrl.value));
  }

  lemma ReconnectSettles(m: Manager, immediate: bool, env: Env)
    requires Dropped(m) && m.status == Disconnected && m.connection.Some?
    ensures Inv(Deliver(InitiateReconnect(m, immediate, env), Disconnected, []))
  {
    hide Inv, Deliver, InitiateConnectToTv, ForceReset;
    if !env.reconnectLoad && m.checker.operational {
      DroppedSettles(m, Disconnected);
    } else {
      var m1 := SetFlow(m, Active);
      if m1.wsUrl.None? {
        ResetDrops(SetFlow(m1, Inactive), env.resetDisk);
        DroppedSettles(InitiateReconnect(m, immediate, env), Disconnected);
      } else {
        ConnectSettles(m1.(reconnect := CountRetry(m1.reconnect, immediate)), m.connection.value);
      }
    }
  }

  // --------------------------------------------------------------- the outputs

  /** The lemmas on outputs start where only the output itself is pending. */
  predicate Handling(m: Manager, fsm: State, o: Output) {
    Common(m) && m.outbox == [] && m.status == fsm && Awaiting(m, fsm, o)
  }

  lemma DisconnectedSettles(m: Manager, env: Env)
    requires Common(m) && m.outbox == [] && m.status == Disconnected && HasChannels(m.ws)
    ensures Inv(Deliver(HandleDisconnected(m, env), Disconnected, []))
  {
    hide Inv, Deliver, InitiateReconnect;
    var m1 := InitializeManagerState(AwaitHandler(m), env.answer.disk);
    assert Dropped(m1);
    if m1.reconnect.flow != Active {
      DroppedSettles(m1, Disconnected);
    } else if m1.pairing {
      DroppedSettles(SetFlow(m1, Inactive).(pairing := false), Disconnected);
    } else {
      ReconnectSettles(m1, false, env);
    }
  }

  lemma ConnectErrorSettles(m: Manager, env: Env)
    requires Handling(m, Disconnected, HandleConnectError)
    ensures Inv(Deliver(OnOutput(m, HandleConnectError, env), Disconnected, []))
  {
    hide Inv, Deliver, InitiateReconnect, ForceReset;
    var m1 := ForceReset(m, env.answer.disk);
    ResetDrops(m, env.answer.disk);
    if ShouldRetryConnectFailure(m1) && m1.reconnect.flow == Active {
      ReconnectSettles(m1, false, env);
    } else {
      DroppedSettles(m1, Disconnected);
    }
  }

  lemma SendSettles(m: Manager, w: WsMessage, a: Answer, fsm: State)
    requires Common(m) && m.outbox == [] && m.status == fsm
    requires Grounded(m, fsm) && InPhase(m, fsm)
    ensures Inv(Deliver(SendToWs(m, w, a), fsm, []))
  {
    hide Inv, Deliver, ForceReset;
    if m.ws.sender.None? || a.sent {
      ResetsSettle(SendToWs(m, w, a), fsm);
    } else {
      ResetDrops(HandToWs(m, w), a.disk);
      DroppedSettles(SendToWs(m, w, a), fsm);
    }
  }

  lemma RegisterSettles(m: Manager, env: Env, fsm: State)
    requires Handling(m, fsm, SendRegisterPayload)
    ensures Inv(Deliver(OnOutput(m, SendRegisterPayload, env), fsm, []))
  {
    hide Inv, Deliver, SendToWs;
    SendSettles(SetFlow(m, Inactive).(sessions := m.sessions + 1), Register, env.answer, fsm);
  }

  /** While the queries go out: either nothing has gone wrong yet, or a reset has
      been sent. */
  predicate Querying(m: Manager, r: Manager, fsm: State) {
    && Common(r) && AllResets(r.outbox) && r.status == m.status
    && (r.outbox == [] ==> Grounded(r, fsm) && InPhase(r, fsm))
    && (r.outbox != [] ==> r.ws.joinHandle == None)
    && HasChannels(r.ws)
  }

  lemma {:induction false} QueriesSettle(m: Manager, answers: seq<Answer>, fsm: State)
    requires Common(m) && m.outbox == [] && Grounded(m, fsm) && InPhase(m, fsm) && HasChannels(m.ws)
    ensures Querying(m, SendQueries(m, answers), fsm)
    decreases |answers|
  {
    if answers != [] {
      hide ForceReset, Common;
      var n := |answers| - 1;
      QueriesSettle(m, answers[..n], fsm);
      QueryStep(m, SendQueries(m, answers[..n]), Query(n), answers[n], fsm);
    }
  }

  lemma QueryStep(m: Manager, r: Manager, w: WsMessage, a: Answer, fsm: State)
    requires Querying(m, r, fsm)
    ensures Querying(m, SendToWs(r, w, a), fsm)
  {
    hide ForceReset;
    if !a.sent {
      ResetDrops(HandToWs(r, w), a.disk);
      ResetFacts(HandToWs(r, w), a.disk);
    }
  }

  lemma InitializeSettles(m: Manager, env: Env, fsm: State)
    requires Handling(m, fsm, InitializeConnection)
    ensures Inv(Deliver(OnOutput(m, InitializeConnection, env), fsm, []))
  {
    hide Inv, Deliver, SendQueries;
    QueriesSettle(m.(pairing := false), env.queryAnswers, fsm);
    ResetsSettle(OnOutput(m, InitializeConnection, env), fsm);
  }

  lemma DisconnectFromTvSettles(m: Manager, env: Env, fsm: State)
    requires Handling(m, fsm, DisconnectFromTv)
    ensures Inv(Deliver(OnOutput(m, DisconnectFromTv, env), fsm, []))
  {
    hide Inv, Deliver, SendToWs;
    SendSettles(OptionallyPrepareForReconnect(m, env.firstLoad, env.secondLoad), ShutDown, env.answer, fsm);
  }

  lemma OutputSettles(m: Manager, o: Output, env: Env, fsm: State)
    requires Handling(m, fsm, o)
    ensures Inv(Deliver(OnOutput(m, o, env), fsm, []))
  {
    hide Inv, Deliver, SendToWs, HandleDisconnected, ForceReset, InitiateReconnect, InitializeTvConnection, InitiateDisconnectFromTv;
    match o
    case ConnectToTv(url) => ResetsSettle(OnOutput(m, o, env), fsm);
    case PairWithTv => ResetsSettle(OnOutput(m, o, env), fsm);
    case SendRegisterPayload => RegisterSettles(m, env, fsm);
    case InitializeConnection => InitializeSettles(m, env, fsm);
    case PassCommand(c) => SendSettles(m, Command(c), env.answer, fsm);
    case DisconnectFromTv => DisconnectFromTvSettles(m, env, fsm);
    case HandleConnectError => ConnectErrorSettles(m, env);
    case HandleSuccessfulDisconnect => DisconnectedSettles(m.(manualDisconnect := false), env);
    case HandleDisconnectError => DisconnectedSettles(m.(manualDisconnect := false), env);
  }

  /** Reading a state or an error leaves the output pending behind it. */
  lemma SkippedUpdate(status: State, pend: seq<Update>)
    requires pend != [] && !pend[0].Emitted? && OneOutput(pend)
    ensures OneOutput(pend[1..]) && Tail(pend[1..]) == Tail(pend)
    ensures Latest(status, pend) == Latest(if pend[0].NewState? then pend[0].state else status, pend[1..])
  {
    if |pend| > 1 {
      assert pend[1..][|pend| - 2] == pend[|pend| - 1];
    }
    assert forall k | 0 <= k < |pend| - 2 :: pend[1..][k] == pend[k + 1];
  }

  lemma LoneOutput(status: State, pend: seq<Update>)
    requires pend != [] && pend[0].Emitted? && OneOutput(pend)
    ensures pend == [pend[0]] && pend[1..] == []
    ensures Tail(pend) == Some(pend[0].output) && Latest(status, pend) == status
  {
  }

  lemma UpdateSettles(b: Settled, env: Env)
    requires Inv(b) && CanStep(b, HandleUpdate(env))
    ensures Inv(After(b, HandleUpdate(env)))
  {
    hide OnOutput, OneOutput, Tail, Latest, Awaiting, Grounded, InPhase;
    var u := b.pend[0];
    if u.Emitted? {
      LoneOutput(b.m.status, b.pend);
      OutputSettles(b.m, u.output, env, b.fsm);
    } else {
      SkippedUpdate(b.m.status, b.pend);
      assert b.pend[1..] + RunUpdates(b.fsm, []) == b.pend[1..];
      AgreesWithoutStatus(b.m, b.fsm, Tail(b.pend), OnUpdate(b.m, u, env).status);
    }
  }

  lemma AgreesWithoutStatus(m: Manager, fsm: State, tail: Option<Output>, status: State)
    ensures Agrees(m.(status := status), fsm, tail) == Agrees(m, fsm, tail)
  {
  }

  // ---------------------------------------------------------- the outside events

  /** Where outside events find the system. */
  predicate Resting(m: Manager, fsm: State) {
    Common(m) && m.outbox == [] && m.status == fsm && Grounded(m, fsm) && InPhase(m, fsm)
  }

  /** An input other than Error settles from rest, whatever the machine makes of it. */
  lemma RestingInput(m: Manager, fsm: State, i: Input)
    requires Common(m) && m.status == fsm && m.outbox == [i] && Grounded(m, fsm)
    requires i.Error? || InPhase(m, fsm)
    requires !i.Connect? && !i.Reset?
    ensures Inv(Deliver(m, fsm, []))
  {
    hide Inv, Deliver;
    assert [] + [i] == [i];
    InputSettles(m, fsm, [], i);
  }

  lemma LoseConnectionSettles(m: Manager, env: Env, fsm: State)
    requires Resting(m, fsm)
    ensures Inv(Deliver(LoseConnection(m, env), fsm, []))
  {
    hide Inv, Deliver;
    RestingInput(LoseConnection(m, env), fsm, Error);
  }

  lemma RestSettles(m: Manager, fsm: State)
    requires Resting(m, fsm)
    ensures Inv(Deliver(m, fsm, []))
  {
    hide Inv, Deliver, Common, InPhase;
    ResetsSettle(m, fsm);
  }

  lemma ResponseSettles(m: Manager, r: TvResponse, fsm: State)
    requires Resting(m, fsm)
    ensures Inv(Deliver(OnResponse(m, r), fsm, []))
  {
    hide Inv, Deliver;
    match r
    case Volume =>
      if m.initialized {
        RestSettles(m, fsm);
      } else {
        RestingInput(OnResponse(m, r), fsm, StartCommunication);
      }
    case PairPrompt => RestingInput(OnResponse(m, r), fsm, Pair);
    case PairUnexpected => RestingInput(OnResponse(m, r), fsm, Error);
    case Registered => RestingInput(OnResponse(m, r), fsm, Initialize);
    case TvError(isPairingError) =>
      if isPairingError {
        RestingInput(OnResponse(m, r), fsm, Error);
      } else {
        RestSettles(m, fsm);
      }
    case Details => RestSettles(m, fsm);
    case Unrecognized => RestSettles(m, fsm);
  }

  lemma WsSettles(m: Manager, w: WsUpdate, env: Env, fsm: State)
    requires Resting(m, fsm)
    ensures Inv(Deliver(OnWs(m, w, env), fsm, []))
  {
    hide Inv, Deliver, LoseConnection, OnResponse;
    match w
    case WsPayload(r) => ResponseSettles(m, r, fsm);
    case WsConnectError => LoseConnectionSettles(m, env, fsm);
    case WsMessageReadError => LoseConnectionSettles(m, env, fsm);
    case WsServerClosedConnection => LoseConnectionSettles(m, env, fsm);
    case WsIdle => RestSettles(m, fsm);
    case WsConnected => RestingInput(OnWs(m, w, env), fsm, AttemptRegister);
    case WsDisconnected => RestingInput(OnWs(m, w, env), fsm, DisconnectionComplete);
    case WsConnectionOk(ok) =>
      if ok {
        RestSettles(m, fsm);
      } else {
        RestingInput(OnWs(m, w, env), fsm, Error);
      }
  }

  lemma OfflineSettles(m: Manager, fsm: State)
    requires Resting(m, fsm)
    ensures Inv(Deliver(TvWentOffline(m), fsm, []))
  {
    hide Inv, Deliver;
    if fsm == Disconnected {
      ResetsSettle(TvWentOffline(m), fsm);
    } else {
      RestingInput(TvWentOffline(m), fsm, Error);
    }
  }

  lemma NetworkSettles(m: Manager, onNetwork: bool, env: Env, fsm: State)
    requires Resting(m, fsm)
    ensures Inv(Deliver(OnNetwork(m, onNetwork, env), fsm, []))
  {
    hide Inv, Deliver, InitiateReconnect;
    hide TvWentOffline;
    if m.checker.wasOnNetwork && !onNetwork {
      OfflineSettles(Noticed(m, onNetwork), fsm);
    } else if !m.checker.wasOnNetwork && onNetwork && m.reconnect.flow == WaitingForTvOnNetwork {
      if fsm == Disconnected {
        ReconnectSettles(Noticed(m, onNetwork), true, env);
      } else {
        ReconnectWhileClosing(Noticed(m, onNetwork), env, fsm);
      }
    } else {
      RestSettles(Noticed(m, onNetwork), fsm);
    }
  }

  lemma ReconnectWhileClosing(m: Manager, env: Env, fsm: State)
    requires Resting(m, fsm) && fsm.Disconnecting?
    ensures Inv(Deliver(InitiateReconnect(m, true, env), fsm, []))
  {
    hide Inv, Deliver, ForceReset;
    if env.reconnectLoad || !m.checker.operational {
      if m.wsUrl.None? {
        ResetDrops(SetFlow(SetFlow(m, Active), Inactive), env.resetDisk);
        DroppedSettles(InitiateReconnect(m, true, env), fsm);
      } else {
        ResetsSettle(InitiateReconnect(m, true, env), fsm);
      }
    } else {
      RestSettles(m, fsm);
    }
  }

  lemma CancelSettles(m: Manager, env: Env, fsm: State)
    requires Resting(m, fsm)
    ensures Inv(Deliver(OnCaller(m, CancelReconnect, env), fsm, []))
  {
    hide Inv, Deliver, ForceReset;
    if !KeepsTarget(m.reconnect.flow) {
      RestSettles(m, fsm);
    } else if m.reconnect.flow == WaitingForTvOnNetwork {
      ResetDrops(SetFlow(m, Cancelled), env.answer.disk);
      DroppedSettles(OnCaller(m, CancelReconnect, env), fsm);
    } else {
      ResetsSettle(SetFlow(m, Cancelled), fsm);
    }
  }

  lemma RequestSettles(m: Manager, c: Connection, fsm: State)
    requires Resting(m, fsm)
    ensures Inv(Deliver(InitiateConnectToTv(m, c), fsm, []))
  {
    hide Inv, Deliver, InitiateConnectToTv;
    if CanConnect(m, c) {
      ConnectSettles(m, c);
    } else {
      RestSettles(m, fsm);
      assert InitiateConnectToTv(m, c) == m by { RefusedRequest(m, c); }
    }
  }

  lemma RefusedRequest(m: Manager, c: Connection)
    requires !CanConnect(m, c)
    ensures InitiateConnectToTv(m, c) == m
  {
  }

  lemma CallerSettles(m: Manager, msg: ManagerMessage, env: Env, fsm: State)
    requires Resting(m, fsm) && msg != ShutDownManager
    ensures Inv(Deliver(OnCaller(m, msg, env), fsm, []))
  {
    hide Inv, Deliver, InitiateConnectToTv, SendToWs, ForceReset;
    match msg
    case CancelReconnect => CancelSettles(m, env, fsm);
    case ConnectTo(c) => RequestSettles(m, c, fsm);
    case ConnectLastGoodConnection =>
      if m.lastGood.Some? {
        RequestSettles(m, m.lastGood.value, fsm);
      } else {
        RestSettles(m, fsm);
      }
    case CallerDisconnect => RestingInput(OnCaller(m, msg, env), fsm, StateMachine.Disconnect);
    case SendTvCommand(c) => RestingInput(OnCaller(m, msg, env), fsm, SendCommand(c));
    case CallerTestConnection =>
      if m.initialized {
        SendSettles(m, TestConnection, env.answer, fsm);
      } else {
        RestSettles(m, fsm);
      }
    case OtherRequest => RestSettles(m, fsm);
  }

  lemma ExternalSettles(b: Settled, ev: External, env: Env)
    requires Inv(b) && CanStep(b, HandleExternal(ev, env))
    ensures Inv(After(b, HandleExternal(ev, env)))
  {
    hide OnCaller, OnWs, OnNetwork, Deliver;
    match ev
    case FromCaller(msg) => CallerSettles(b.m, msg, env, b.fsm);
    case FromWs(w) => WsSettles(b.m, w, env, b.fsm);
    case FromNetwork(onNetwork) => NetworkSettles(b.m, onNetwork, env, b.fsm);
  }

  lemma StepSettles(b: Settled, step: Step)
    requires Inv(b) && CanStep(b, step)
    ensures Inv(After(b, step))
  {
    hide Inv, After;
    if step.HandleUpdate? {
      UpdateSettles(b, step.env);
    } else {
      ExternalSettles(b, step.event, step.env);
    }
  }

  lemma {:induction false} RunSettles(b: Settled, steps: seq<Step>)
    requires Inv(b) && CanRun(b, steps)
    ensures Inv(RunFrom(b, steps))
    decreases |steps|
  {
    hide Inv, After;
    if steps != [] {
      StepSettles(b, steps[0]);
      RunSettles(After(b, steps[0]), steps[1..]);
    }
  }
}
