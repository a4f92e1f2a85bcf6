/** The manager as the object it is: every method updates its fields in place and
    is proved to do what the model's handler of the same name says. */
module EventLoop {
  import opened Wrappers
  import opened StateMachine
  import M = ManagerModel
  import opened ManagerModel
  import opened ReconnectWait
  import Backoff

  class LgTvManager {
    var managerStatus: State
    var connectionDetails: Option<Connection>
    var lastGoodConnection: Option<Connection>
    var isConnectionInitialized: bool
    var isManualDisconnectRequested: bool
    var isPairing: bool
    var reconnectFlowStatus: Flow
    var reconnectAttempts: nat
    var sessionConnectionCount: nat
    var wsUrl: Option<Url>
    var toWsTx: Option<nat>
    var fromWsRx: Option<nat>
    var wsJoinHandle: Option<nat>
    var toFsmTx: FsmLink
    var isCheckerOperational: bool
    var hasPingTarget: bool
    var wasOnNetwork: bool
    var isRunning: bool
    var outbox: seq<Input>
    var started: seq<Url>
    ghost var marks: seq<Mark>
    ghost var wsLog: seq<Handed>

    ghost function View(): Manager
      reads this
    {
      Manager(managerStatus, connectionDetails, lastGoodConnection, isConnectionInitialized,
              isManualDisconnectRequested, isPairing, Reconnect(reconnectFlowStatus, reconnectAttempts, marks),
              sessionConnectionCount, wsUrl, WsEnds(toWsTx, fromWsRx, wsJoinHandle, started, wsLog),
              toFsmTx, Checker(isCheckerOperational, hasPingTarget, wasOnNetwork), isRunning, outbox)
    }

    constructor (disk: Disk)
      ensures View() == NewManager(disk)
    {
      managerStatus := Disconnected;
      connectionDetails, lastGoodConnection := None, None;
      isConnectionInitialized, isManualDisconnectRequested, isPairing := false, false, false;
      reconnectFlowStatus, reconnectAttempts, sessionConnectionCount := Inactive, 0, 0;
      wsUrl := None;
      toWsTx, fromWsRx, wsJoinHandle := None, None, None;
      toFsmTx := NotStarted;
      isCheckerOperational, hasPingTarget, wasOnNetwork, isRunning := false, false, false, false;
      outbox, started, marks, wsLog := [], [], [], [];
      new;
      ImportPersistedState(disk);
    }

    // ------------------------------------------------------------------- setters

    method SetManagerStatus(status: State)
      modifies this
      ensures View() == old(View()).(status := status)
    {
      if status == managerStatus {
        return;
      }
      managerStatus := status;
    }

    method SetReconnectFlowStatus(flow: Flow)
      modifies this
      ensures View() == SetFlow(old(View()), flow)
    {
      if reconnectFlowStatus != Active {
        reconnectAttempts := 0;
      }
      reconnectFlowStatus := flow;
      marks := marks + [FlowSet(flow)];
    }

    // ------------------------------------------------------------------- senders

    method EnterZombieState()
      modifies this
      ensures View() == old(View()).(status := Zombie)
    {
      SetManagerStatus(Zombie);
    }

    method SendToFsm(input: Input) returns (sent: bool)
      modifies this
      ensures View() == M.SendToFsm(old(View()), input)
      ensures sent <==> old(toFsmTx) != Closed
    {
      sent := true;
      if toFsmTx == Open {
        outbox := outbox + [input];
        assert View() == old(View()).(outbox := outbox);
      } else if toFsmTx == Closed {
        EnterZombieState();
        sent := false;
      }
    }

    method SendToWs(message: WsMessage, answer: Answer) returns (sent: bool)
      modifies this
      ensures View() == M.SendToWs(old(View()), message, answer)
      ensures sent <==> old(toWsTx).None? || answer.sent
    {
      match toWsTx {
        case Some(handler) =>
          wsLog := wsLog + [Handed(handler, message)];
          sent := answer.sent;
          if !sent {
            ForceManagerReset(answer.disk);
          }
        case None =>
          sent := true;
      }
    }

    // -------------------------------------------------------------------- resets

    method ImportPersistedState(disk: Disk)
      modifies this
      ensures View() == old(View()).(wsUrl := ImportedUrl(old(wsUrl), disk))
    {
      match disk {
        case Stored(url) => wsUrl := url;
        case Unreadable =>
      }
    }

    static ghost function Cleared(m: Manager): Manager {
      if KeepsTarget(m.reconnect.flow) then m.(initialized := false)
      else m.(initialized := false, connection := None, wsUrl := None, sessions := 0, pairing := false)
    }

    static lemma InitializingIs(m: Manager, disk: Disk)
      ensures var m1 := if m.reconnect.flow == Cancelled then SetFlow(Cleared(m), Inactive) else Cleared(m);
        M.InitializeManagerState(m, disk) == m1.(wsUrl := ImportedUrl(m1.wsUrl, disk))
      ensures Cleared(m).reconnect == m.reconnect
    {
    }

    method ClearTvState()
      modifies this
      ensures View() == Cleared(old(View()))
    {
      isConnectionInitialized := false;
      assert View() == old(View()).(initialized := false);
      if reconnectFlowStatus != Active && reconnectFlowStatus != WaitingForTvOnNetwork {
        ForgetTarget();
      }
    }

    method ForgetTarget()
      modifies this
      ensures View() == old(View()).(connection := None, wsUrl := None, sessions := 0, pairing := false)
    {
      connectionDetails := None;
      wsUrl := None;
      sessionConnectionCount := 0;
      isPairing := false;
      assert View().ws == old(View().ws) && View().reconnect == old(View().reconnect);
    }

    method InitializeManagerState(disk: Disk)
      modifies this
      ensures View() == M.InitializeManagerState(old(View()), disk)
    {
      InitializingIs(old(View()), disk);
      ClearTvState();
      hide Cleared, SetFlow, ImportedUrl, M.InitializeManagerState;
      if reconnectFlowStatus == Cancelled {
        SetReconnectFlowStatus(Inactive);
      }
      ImportPersistedState(disk);
    }

    method ForceManagerReset(disk: Disk)
      modifies this
      ensures View() == ForceReset(old(View()), disk)
    {
      if toWsTx.Some? {
        // The outcome of this send is ignored
        wsLog := wsLog + [Handed(toWsTx.value, ShutDown)];
      }
      wsJoinHandle := None;
      assert View() == DropHandler(old(View()));
      hide M.InitializeManagerState, M.SendToFsm, DropHandler;
      InitializeManagerState(disk);
      var _ := SendToFsm(Reset);
    }

    // ------------------------------------------------------------ retry settings

    predicate IsInitialConnectRetriesEnabled()
      reads this
    {
      match connectionDetails
      case Some(connection) => connection.settings.initialConnectRetries
      case None => false
    }

    predicate IsAutoReconnectEnabled()
      reads this
    {
      match connectionDetails
      case Some(connection) => connection.settings.autoReconnect
      case None => false
    }

    method OptionallyPrepareForReconnect(firstLoad: bool, secondLoad: bool)
      modifies this
      ensures View() == M.OptionallyPrepareForReconnect(old(View()), firstLoad, secondLoad)
    {
      if isManualDisconnectRequested || reconnectFlowStatus == Cancelled {
        return;
      }
      var flow := Inactive;
      if IsAutoReconnectEnabled() {
        if firstLoad {
          flow := Active;
        } else if !secondLoad && !isCheckerOperational {
          flow := Active;
        } else {
          flow := WaitingForTvOnNetwork;
        }
      }
      SetReconnectFlowStatus(flow);
    }

    predicate ShouldRetryConnectFailure()
      reads this
    {
      if IsInitialConnectRetriesEnabled() && sessionConnectionCount == 0 then true
      else if IsAutoReconnectEnabled() && sessionConnectionCount > 0 then true
      else false
    }

    // ---------------------------------------------------------------- connecting

    method InitiateConnectToTv(connection: Connection) returns (accepted: bool)
      modifies this
      ensures View() == M.InitiateConnectToTv(old(View()), connection)
      ensures accepted <==> CanConnect(old(View()), connection)
    {
      accepted := false;
      if managerStatus == Disconnected && toFsmTx != NotStarted {
        match connection.wsUrl {
          case Some(url) =>
            ConnectToUrl(connection, url);
            accepted := true;
          case None =>
        }
      }
    }

    method ConnectToUrl(connection: Connection, url: Url)
      requires CanConnect(View(), connection) && connection.wsUrl == Some(url)
      modifies this
      ensures View() == M.InitiateConnectToTv(old(View()), connection)
    {
      AcceptingIs(View(), connection, url);
      SetTarget(connection);
      var flow := if IsInitialConnectRetriesEnabled() then Active else Inactive;
      hide View, SetFlow, M.SendToFsm, M.InitiateConnectToTv, CanConnect, Targeting;
      SetReconnectFlowStatus(flow);
      var _ := SendToFsm(Connect(url));
      SetWsUrl(url);
    }

    /** The connection is remembered, and its address, if it has one, given to the checker. */
    method SetTarget(connection: Connection)
      modifies this
      ensures View() == Targeting(old(View()), connection)
    {
      connectionDetails := Some(connection);
      if connection.hasAddress {
        hasPingTarget := true;
      }
      assert View().ws == old(View().ws) && View().reconnect == old(View().reconnect);
    }

    method SetWsUrl(url: Url)
      modifies this
      ensures View() == old(View()).(wsUrl := Some(url))
    {
      wsUrl := Some(url);
    }

    static lemma AcceptingIs(m: Manager, c: Connection, url: Url)
      requires CanConnect(m, c) && c.wsUrl == Some(url)
      ensures var flow := if c.settings.initialConnectRetries then Active else Inactive;
        M.InitiateConnectToTv(m, c) ==
        M.SendToFsm(SetFlow(Targeting(m, c), flow), Connect(url)).(wsUrl := Some(url))
    {
    }

    method StartWebSocketHandlerAndConnect(url: Url)
      modifies this
      ensures View() == StartWebSocketHandler(old(View()), url)
    {
      var id := |started|;
      toWsTx := Some(id);
      fromWsRx := Some(id);
      started := started + [url];
      wsJoinHandle := Some(id);
      assert View().ws == WsEnds(Some(id), Some(id), Some(id), old(started) + [url], old(wsLog));
    }

    method SendRegister(answer: Answer)
      modifies this
      ensures View() == M.SendToWs(old(View()), Register, answer)
    {
      var _ := SendToWs(Register, answer);
    }

    method InitializeTvConnection(answers: seq<Answer>)
      requires |answers| == QUERY_COUNT
      modifies this
      ensures View() == M.InitializeTvConnection(old(View()), answers)
    {
      hide View, M.SendToWs, SendQueries;
      ghost var before := View();
      var _ := SendToWs(Query(0), answers[0]);
      NextQuery(before, answers, 0);
      var _ := SendToWs(Query(1), answers[1]);
      NextQuery(before, answers, 1);
      var _ := SendToWs(Query(2), answers[2]);
      NextQuery(before, answers, 2);
      var _ := SendToWs(Query(3), answers[3]);
      NextQuery(before, answers, 3);
      var _ := SendToWs(Query(4), answers[4]);
      NextQuery(before, answers, 4);
      var _ := SendToWs(Query(5), answers[5]);
      NextQuery(before, answers, 5);
      assert answers[..6] == answers;
      RememberConnection();
    }

    method RememberConnection()
      modifies this
      ensures var m := old(View());
        View() == if m.connection.Some? then m.(lastGood := m.connection) else m
    {
      if connectionDetails.Some? {
        lastGoodConnection := connectionDetails;
      }
      assert View().ws == old(View().ws);
    }

    static lemma NextQuery(m: Manager, answers: seq<Answer>, n: nat)
      requires n < |answers|
      ensures SendQueries(m, answers[..n + 1]) == M.SendToWs(SendQueries(m, answers[..n]), Query(n), answers[n])
      ensures SendQueries(m, answers[..0]) == m
    {
      hide M.SendToWs;
      assert answers[..n + 1][..n] == answers[..n];
    }

    // ------------------------------------------------------------- disconnecting

    method InitiateDisconnectFromTv(answer: Answer)
      modifies this
      ensures View() == M.InitiateDisconnectFromTv(old(View()), answer)
    {
      if wsJoinHandle.Some? {
        var _ := SendToWs(ShutDown, answer);
      }
    }

    method HandleDisconnected(env: Env)
      modifies this
      ensures View() == M.HandleDisconnected(old(View()), env)
    {
      wsJoinHandle := None;
      assert View() == AwaitHandler(old(View()));
      hide M.InitializeManagerState, AwaitHandler, M.InitiateReconnect, SetFlow;
      InitializeManagerState(env.answer.disk);
      if reconnectFlowStatus == Active {
        if isPairing {
          SetReconnectFlowStatus(Inactive);
          ghost var stoppedView := View();
          isPairing := false;
          assert View() == stoppedView.(pairing := false);
        } else {
          var _ := InitiateReconnect(false, env);
        }
      }
    }

    method CountAttempt(immediate: bool)
      modifies this
      ensures View() == old(View()).(reconnect := CountRetry(old(View()).reconnect, immediate))
    {
      marks := marks + [Retried(if immediate then None else Some(reconnectAttempts))];
      reconnectAttempts := reconnectAttempts + 1;
      assert View().ws == old(View().ws);
    }

    /** The wait before a retry: the caller is told the time left at every feedback
        tick until the retry is due. */
    method AwaitRetry(url: Url, delay: nat, ticks: seq<WaitTick>) returns (announced: seq<State>)
      ensures announced == Announcements(url, reconnectAttempts, delay, ticks)
    {
      hide Announcements;
      announced := [];
      var n := 0;
      assert ticks[0..] == ticks;
      while n < |ticks| && ticks[n].Feedback?
        invariant n <= |ticks|
        invariant announced + Announcements(url, reconnectAttempts, delay, ticks[n..]) ==
          Announcements(url, reconnectAttempts, delay, ticks)
      {
        NextAnnouncement(url, reconnectAttempts, delay, ticks, n);
        match ticks[n].elapsed {
          case Some(elapsed) =>
            var left := if elapsed >= delay then 0 else delay - elapsed;
            announced := announced + [WaitingToReconnect(url, reconnectAttempts, left)];
          case None =>
        }
        n := n + 1;
      }
      NothingMoreAnnounced(url, reconnectAttempts, delay, ticks, n);
    }

    method InitiateReconnect(immediate: bool, env: Env) returns (waited: Option<Wait>)
      modifies this
      ensures View() == M.InitiateReconnect(old(View()), immediate, env)
      ensures waited == WaitBefore(old(View()), immediate, env)
    {
      hide Backoff.Delay, SetFlow, ForceReset, M.InitiateConnectToTv, Announcements;
      waited := None;
      if !env.reconnectLoad && isCheckerOperational {
        return;
      }
      SetReconnectFlowStatus(Active);
      if wsUrl.None? {
        SetReconnectFlowStatus(Inactive);
        ForceManagerReset(env.resetDisk);
        return;
      }
      match connectionDetails {
        case Some(connection) =>
          if !immediate {
            var delay := Backoff.Delay(reconnectAttempts);
            var announced := AwaitRetry(wsUrl.value, delay, env.waitTicks);
            waited := Some(Wait(delay, announced));
          }
          CountAttempt(immediate);
          var _ := InitiateConnectToTv(connection);
        case None =>
      }
    }

    method AttemptFsmError()
      modifies this
      ensures View() == M.SendToFsm(old(View()), Error)
    {
      var _ := SendToFsm(Error);
    }

    // -------------------------------------------------- the branches of the loop

    method RequestDisconnect()
      modifies this
      ensures View() == M.SendToFsm(old(View()).(manualDisconnect := true), StateMachine.Disconnect)
    {
      hide M.SendToFsm;
      isManualDisconnectRequested := true;
      assert View() == old(View()).(manualDisconnect := true);
      var _ := SendToFsm(StateMachine.Disconnect);
    }

    /** The state machine task is stopped, the handler told, and the loop left. */
    method StopRunning(env: Env)
      modifies this
      ensures View() == OnCaller(old(View()), ShutDownManager, env)
    {
      hide M.InitiateDisconnectFromTv;
      toFsmTx := Closed;
      assert View() == old(View()).(link := Closed);
      InitiateDisconnectFromTv(env.answer);
      ghost var told := View();
      isRunning := false;
      assert View() == told.(running := false);
    }

    method HandleManagerMessage(msg: ManagerMessage, env: Env)
      modifies this
      ensures View() == OnCaller(old(View()), msg, env)
    {
      hide M.SendToWs, ForceReset, M.InitiateConnectToTv, M.SendToFsm, M.InitiateDisconnectFromTv, SetFlow;
      match msg {
        case CancelReconnect =>
          if reconnectFlowStatus == Active || reconnectFlowStatus == WaitingForTvOnNetwork {
            var wasWaiting := reconnectFlowStatus == WaitingForTvOnNetwork;
            SetReconnectFlowStatus(Cancelled);
            if wasWaiting {
              ForceManagerReset(env.answer.disk);
            }
          }
        case ConnectTo(connection) =>
          var _ := InitiateConnectToTv(connection);
        case ConnectLastGoodConnection =>
          if lastGoodConnection.Some? {
            var _ := InitiateConnectToTv(lastGoodConnection.value);
          }
        case CallerDisconnect => RequestDisconnect();
        case SendTvCommand(command) =>
          var _ := SendToFsm(SendCommand(command));
        case ShutDownManager => StopRunning(env);
        case CallerTestConnection =>
          if isConnectionInitialized {
            var _ := SendToWs(TestConnection, env.answer);
          }
        case OtherRequest =>
      }
    }

    method RegisterWithTv(env: Env)
      modifies this
      ensures View() == OnOutput(old(View()), SendRegisterPayload, env)
    {
      hide M.SendToWs, SetFlow;
      SetReconnectFlowStatus(Inactive);
      ghost var inactive := View();
      sessionConnectionCount := sessionConnectionCount + 1;
      assert View() == inactive.(sessions := inactive.sessions + 1);
      SendRegister(env.answer);
    }

    method InitializePairedConnection(env: Env)
      requires Complete(env)
      modifies this
      ensures View() == OnOutput(old(View()), InitializeConnection, env)
    {
      hide M.InitializeTvConnection;
      isPairing := false;
      assert View() == old(View()).(pairing := false);
      InitializeTvConnection(env.queryAnswers);
    }

    method CompleteDisconnect(env: Env)
      modifies this
      ensures View() == M.HandleDisconnected(old(View()).(manualDisconnect := false), env)
    {
      hide M.HandleDisconnected;
      isManualDisconnectRequested := false;
      assert View() == old(View()).(manualDisconnect := false);
      HandleDisconnected(env);
    }

    method HandleFailedConnect(env: Env)
      modifies this
      ensures View() == OnOutput(old(View()), HandleConnectError, env)
    {
      hide ForceReset, M.InitiateReconnect, SetFlow;
      ForceManagerReset(env.answer.disk);
      if ShouldRetryConnectFailure() {
        match reconnectFlowStatus {
          case Active =>
            var _ := InitiateReconnect(false, env);
          case Cancelled => SetReconnectFlowStatus(Inactive);
          case _ =>
        }
      }
    }

    method HandleOutput(output: Output, env: Env)
      requires Complete(env)
      modifies this
      ensures View() == OnOutput(old(View()), output, env)
    {
      hide M.SendToWs, ForceReset, M.InitiateReconnect, M.HandleDisconnected, M.InitializeTvConnection, SetFlow;
      hide M.OptionallyPrepareForReconnect, M.InitiateDisconnectFromTv, StartWebSocketHandler;
      match output {
        case ConnectToTv(url) => StartWebSocketHandlerAndConnect(url);
        case SendRegisterPayload => RegisterWithTv(env);
        case PairWithTv =>
          isPairing := true;
          assert View() == old(View()).(pairing := true);
        case InitializeConnection => InitializePairedConnection(env);
        case PassCommand(command) =>
          var _ := SendToWs(Command(command), env.answer);
        case DisconnectFromTv =>
          OptionallyPrepareForReconnect(env.firstLoad, env.secondLoad);
          InitiateDisconnectFromTv(env.answer);
        case HandleSuccessfulDisconnect => CompleteDisconnect(env);
        case HandleConnectError => HandleFailedConnect(env);
        case HandleDisconnectError => CompleteDisconnect(env);
      }
    }

    method HandleStateMachineUpdate(update: Update, env: Env)
      requires Complete(env)
      modifies this
      ensures View() == OnUpdate(old(View()), update, env)
    {
      match update {
        case NewState(state) => SetManagerStatus(state);
        case Emitted(output) => HandleOutput(output, env);
        case TransitionError(_, _) =>
      }
    }

    method HandleLgtvResponse(response: TvResponse) returns (handled: bool)
      modifies this
      ensures View() == OnResponse(old(View()), response)
      ensures handled <==> old(toFsmTx) != NotStarted
    {
      handled := toFsmTx != NotStarted;
      if !handled {
        return;
      }
      match response {
        case Volume =>
          if !isConnectionInitialized {
            var _ := SendToFsm(StartCommunication);
            isConnectionInitialized := true;
          }
        case PairPrompt =>
          var _ := SendToFsm(Pair);
        case PairUnexpected => AttemptFsmError();
        case Registered =>
          var _ := SendToFsm(Initialize);
        case TvError(isPairingError) =>
          if isPairingError {
            var _ := SendToFsm(Error);
          }
        case Details =>
        case Unrecognized =>
      }
    }

    method HandleWsUpdate(update: WsUpdate, env: Env)
      modifies this
      ensures View() == OnWs(old(View()), update, env)
    {
      match update {
        case WsIdle =>
        case WsConnected =>
          var _ := SendToFsm(AttemptRegister);
        case WsDisconnected =>
          var _ := SendToFsm(DisconnectionComplete);
        case WsConnectError =>
          OptionallyPrepareForReconnect(env.firstLoad, env.secondLoad);
          AttemptFsmError();
        case WsMessageReadError =>
          OptionallyPrepareForReconnect(env.firstLoad, env.secondLoad);
          AttemptFsmError();
        case WsServerClosedConnection =>
          OptionallyPrepareForReconnect(env.firstLoad, env.secondLoad);
          AttemptFsmError();
        case WsPayload(response) =>
          var _ := HandleLgtvResponse(response);
        case WsConnectionOk(ok) =>
          if !ok {
            AttemptFsmError();
          }
      }
    }

    method HandleNetworkNotification(isOnNetwork: bool, env: Env)
      modifies this
      ensures View() == OnNetwork(old(View()), isOnNetwork, env)
    {
      var before := wasOnNetwork;
      wasOnNetwork := isOnNetwork;
      if before && !isOnNetwork {
        if managerStatus == Disconnected {
          SetReconnectFlowStatus(if IsAutoReconnectEnabled() then WaitingForTvOnNetwork else Inactive);
        } else {
          AttemptFsmError();
        }
      }
      var isWaitingForTv := reconnectFlowStatus == WaitingForTvOnNetwork;
      if !before && isOnNetwork && isWaitingForTv {
        var _ := InitiateReconnect(true, env);
      }
    }

    /** What `run` does before its loop begins. */
    method Begin(disk: Disk, isOperational: bool)
      modifies this
      ensures View() == StartedManager(old(View()), disk, isOperational)
    {
      hide M.InitializeManagerState, SetFlow;
      toFsmTx := Open;
      assert View() == old(View()).(link := Open);
      InitializeManagerState(disk);
      SetReconnectFlowStatus(Inactive);
      EnterLoop(isOperational);
    }

    method EnterLoop(isOperational: bool)
      modifies this
      ensures View() == old(View()).(checker := Checker(isOperational, old(hasPingTarget), false), running := true)
    {
      isCheckerOperational := isOperational;
      wasOnNetwork := false;
      isRunning := true;
    }
  }
}
