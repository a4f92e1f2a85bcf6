/** What every handler of the manager keeps, wherever it is called from. */
module ManagerFacts {
  import opened Wrappers
  import opened StateMachine
  import opened ManagerModel
  import opened ReconnectHistory

  /** A flow that is to reconnect has a target, and the only target there ever is
      is the connection the caller's latest accepted request named. */
  predicate HasTarget(flow: Flow, connection: Option<Connection>, accepted: Option<Connection>) {
    && (KeepsTarget(flow) ==> connection.Some?)
    && (connection.Some? ==> connection == accepted && accepted.value.wsUrl.Some?)
  }

  /** The counter agrees with the history. */
  predicate CountsRetries(r: Reconnect) {
    && r.flow == LastFlow(r.marks)
    && (r.flow == Active ==> r.attempts == RetriesInStretch(r.marks))
    && RetriesFollowSchedule(r.marks)
  }

  /** Every connect being sent asks for the accepted connection's URL. */
  predicate DialsTarget(ins: seq<Input>, accepted: Option<Connection>) {
    forall i | i in ins && i.Connect? :: accepted.Some? && accepted.value.wsUrl == Some(i.url)
  }

  predicate NoConnect(ins: seq<Input>) {
    forall i | i in ins :: !i.Connect?
  }

  predicate SendsNoCommand(ins: seq<Input>) {
    forall i | i in ins :: !i.SendCommand?
  }

  predicate Sound(m: Manager, accepted: Option<Connection>) {
    && HasTarget(m.reconnect.flow, m.connection, accepted)
    && CountsRetries(m.reconnect)
    && DialsTarget(m.outbox, accepted)
    && SendsNoCommand(m.outbox)
  }

  function CommandIn(h: Handed): Option<TvCommand> {
    if h.message.Command? then Some(h.message.command) else None
  }

  function HandedCommands(log: seq<Handed>): seq<TvCommand> {
    Collect(CommandIn, log)
  }

  /** What a handler leaves alone while the state machine task is there. */
  predicate Framed(m: Manager, r: Manager) {
    && r.link == m.link
    && r.running == m.running
    && r.status == m.status
    && r.ws.sender == m.ws.sender
    && r.ws.receiver == m.ws.receiver
    && r.ws.started == m.ws.started
    && r.checker.operational == m.checker.operational
    && r.lastGood == m.lastGood
  }

  predicate KeepsAndHands(m: Manager, r: Manager, handed: seq<TvCommand>, accepted: Option<Connection>) {
    Sound(r, accepted) && Framed(m, r) && HandedCommands(r.ws.log) == HandedCommands(m.ws.log) + handed
  }

  predicate Keeps(m: Manager, r: Manager, accepted: Option<Connection>) {
    Sound(r, accepted) && Framed(m, r) && HandedCommands(r.ws.log) == HandedCommands(m.ws.log)
  }

  /** The command a message takes to the handler, if there is one to take it to. */
  function Taken(m: Manager, w: WsMessage): seq<TvCommand> {
    if w.Command? && m.ws.sender.Some? then [w.command] else []
  }

  lemma SetFlowKeeps(m: Manager, f: Flow, accepted: Option<Connection>)
    requires Sound(m, accepted) && (KeepsTarget(f) ==> m.connection.Some?)
    ensures Keeps(m, SetFlow(m, f), accepted)
  {
    Snoc(m.reconnect.marks, FlowSet(f));
  }

  lemma SendKeeps(m: Manager, i: Input, accepted: Option<Connection>)
    requires Sound(m, accepted) && m.link == Open
    requires !i.SendCommand? && (i.Connect? ==> accepted.Some? && accepted.value.wsUrl == Some(i.url))
    ensures Keeps(m, SendToFsm(m, i), accepted)
  {
  }

  lemma HandKeeps(m: Manager, w: WsMessage, accepted: Option<Connection>)
    requires Sound(m, accepted)
    ensures KeepsAndHands(m, HandToWs(m, w), Taken(m, w), accepted)
  {
    hide CountsRetries, DialsTarget, SendsNoCommand;
    if m.ws.sender.Some? {
      CollectSnoc(CommandIn, m.ws.log, Handed(m.ws.sender.value, w));
    } else {
      assert m.ws.log + [] == m.ws.log;
    }
  }

  lemma InitializeKeeps(m: Manager, disk: Disk, accepted: Option<Connection>)
    requires Sound(m, accepted)
    ensures Keeps(m, InitializeManagerState(m, disk), accepted)
    ensures InitializeManagerState(m, disk).reconnect.flow == (if m.reconnect.flow == Cancelled then Inactive else m.reconnect.flow)
    ensures InitializeManagerState(m, disk).connection == (if KeepsTarget(m.reconnect.flow) then m.connection else None)
  {
    hide CountsRetries, DialsTarget, SendsNoCommand, HandedCommands;
    if m.reconnect.flow == Cancelled {
      SetFlowKeeps(m.(connection := None), Inactive, accepted);
    }
  }

  lemma DropKeeps(m: Manager, accepted: Option<Connection>)
    requires Sound(m, accepted)
    ensures Keeps(m, DropHandler(m), accepted) && DropHandler(m).reconnect == m.reconnect
  {
    hide CountsRetries, DialsTarget, SendsNoCommand, HandedCommands;
    HandKeeps(m, ShutDown, accepted);
  }

  lemma ResetKeeps(m: Manager, disk: Disk, accepted: Option<Connection>)
    requires Sound(m, accepted) && m.link == Open
    ensures Keeps(m, ForceReset(m, disk), accepted)
    ensures ForceReset(m, disk).reconnect.flow != Cancelled
  {
    hide CountsRetries, HandedCommands, DialsTarget, SendsNoCommand, SetFlow;
    var m1 := DropHandler(m);
    DropKeeps(m, accepted);
    InitializeKeeps(m1, disk, accepted);
    hide DropHandler, InitializeManagerState;
    SendKeeps(InitializeManagerState(m1, disk), Reset, accepted);
  }

  lemma SendToWsKeeps(m: Manager, w: WsMessage, a: Answer, accepted: Option<Connection>)
    requires Sound(m, accepted) && m.link == Open
    ensures KeepsAndHands(m, SendToWs(m, w, a), Taken(m, w), accepted)
  {
    hide CountsRetries, DialsTarget, SendsNoCommand, HandedCommands, ForceReset;
    HandKeeps(m, w, accepted);
    if m.ws.sender.Some? && !a.sent {
      ResetKeeps(HandToWs(m, w), a.disk, accepted);
    }
  }

  lemma PrepareKeeps(m: Manager, firstLoad: bool, secondLoad: bool, accepted: Option<Connection>)
    requires Sound(m, accepted)
    ensures Keeps(m, OptionallyPrepareForReconnect(m, firstLoad, secondLoad), accepted)
  {
    hide CountsRetries, DialsTarget, SendsNoCommand, HandedCommands;
    if !m.manualDisconnect && m.reconnect.flow != Cancelled {
      SetFlowKeeps(m, OptionallyPrepareForReconnect(m, firstLoad, secondLoad).reconnect.flow, accepted);
    }
  }

  lemma ConnectKeeps(m: Manager, c: Connection, accepted: Option<Connection>)
    requires CanConnect(m, c) && m.link == Open && CountsRetries(m.reconnect) && SendsNoCommand(m.outbox)
    requires accepted == Some(c) && DialsTarget(m.outbox, accepted)
    ensures Keeps(m, InitiateConnectToTv(m, c), accepted)
  {
    var m1 := Targeting(m, c);
    var f := if InitialConnectRetries(m1) then Active else Inactive;
    Snoc(m1.reconnect.marks, FlowSet(f));
    SendKeeps(SetFlow(m1, f), Connect(c.wsUrl.value), accepted);
  }

  lemma ReconnectKeeps(m: Manager, immediate: bool, env: Env, accepted: Option<Connection>)
    requires Sound(m, accepted) && m.link == Open && KeepsTarget(m.reconnect.flow)
    ensures Keeps(m, InitiateReconnect(m, immediate, env), accepted)
  {
    hide CountsRetries, DialsTarget, SendsNoCommand, HandedCommands;
    if env.reconnectLoad || !m.checker.operational {
      var m1 := SetFlow(m, Active);
      SetFlowKeeps(m, Active, accepted);
      if m1.wsUrl.None? {
        SetFlowKeeps(m1, Inactive, accepted);
        ResetKeeps(SetFlow(m1, Inactive), env.resetDisk, accepted);
      } else {
        RetryKeeps(m1, m1.connection.value, immediate, accepted);
      }
    }
  }

  lemma RetryKeeps(m: Manager, c: Connection, immediate: bool, accepted: Option<Connection>)
    requires Sound(m, accepted) && m.link == Open && m.reconnect.flow == Active && m.connection == Some(c)
    ensures Keeps(m, Retry(m, c, immediate), accepted)
  {
    hide HandedCommands;
    var m1 := m.(reconnect := CountRetry(m.reconnect, immediate));
    Snoc(m.reconnect.marks, m1.reconnect.marks[|m.reconnect.marks|]);
    if CanConnect(m1, c) {
      ConnectKeeps(m1, c, accepted);
    }
  }

  lemma DisconnectedKeeps(m: Manager, env: Env, accepted: Option<Connection>)
    requires Sound(m, accepted) && m.link == Open
    ensures Keeps(m, HandleDisconnected(m, env), accepted)
  {
    hide CountsRetries, DialsTarget, SendsNoCommand, HandedCommands;
    InitializeKeeps(AwaitHandler(m), env.answer.disk, accepted);
    var m1 := InitializeManagerState(AwaitHandler(m), env.answer.disk);
    if m1.reconnect.flow == Active && m1.pairing {
      SetFlowKeeps(m1, Inactive, accepted);
    } else if m1.reconnect.flow == Active {
      ReconnectKeeps(m1, false, env, accepted);
    }
  }

  lemma {:induction false} QueriesKeep(m: Manager, answers: seq<Answer>, accepted: Option<Connection>)
    requires Sound(m, accepted) && m.link == Open
    ensures Keeps(m, SendQueries(m, answers), accepted)
    decreases |answers|
  {
    hide CountsRetries, DialsTarget, SendsNoCommand, HandedCommands;
    if answers != [] {
      var n := |answers| - 1;
      QueriesKeep(m, answers[..n], accepted);
      SendToWsKeeps(SendQueries(m, answers[..n]), Query(n), answers[n], accepted);
    }
  }

  lemma ConnectErrorKeeps(m: Manager, env: Env, accepted: Option<Connection>)
    requires Sound(m, accepted) && m.link == Open
    ensures Keeps(m, OnOutput(m, HandleConnectError, env), accepted)
  {
    hide CountsRetries, DialsTarget, SendsNoCommand, HandedCommands;
    ResetKeeps(m, env.answer.disk, accepted);
    var m1 := ForceReset(m, env.answer.disk);
    if ShouldRetryConnectFailure(m1) && m1.reconnect.flow == Active {
      ReconnectKeeps(m1, false, env, accepted);
    }
  }

  lemma DisconnectFromTvKeeps(m: Manager, env: Env, accepted: Option<Connection>)
    requires Sound(m, accepted) && m.link == Open
    ensures Keeps(m, OnOutput(m, DisconnectFromTv, env), accepted)
  {
    hide CountsRetries, DialsTarget, SendsNoCommand, HandedCommands;
    PrepareKeeps(m, env.firstLoad, env.secondLoad, accepted);
    SendToWsKeeps(OptionallyPrepareForReconnect(m, env.firstLoad, env.secondLoad), ShutDown, env.answer, accepted);
  }

  /** What handling an output keeps: the sender appears with ConnectToTv, and a
      command is handed over exactly when one is to be passed on. */
  predicate KeepsOnOutput(m: Manager, o: Output, r: Manager, accepted: Option<Connection>) {
    && Sound(r, accepted)
    && r.link == m.link && r.status == m.status && r.running == m.running
    && (r.ws.sender.Some? <==> m.ws.sender.Some? || o.ConnectToTv?)
    && HandedCommands(r.ws.log) ==
        HandedCommands(m.ws.log) + (if o.PassCommand? && m.ws.sender.Some? then [o.command] else [])
  }

  lemma RegisterKeeps(m: Manager, env: Env, accepted: Option<Connection>)
    requires Sound(m, accepted) && m.link == Open
    ensures Keeps(m, OnOutput(m, SendRegisterPayload, env), accepted)
  {
    hide CountsRetries, DialsTarget, SendsNoCommand, HandedCommands, SendToWs;
    SetFlowKeeps(m, Inactive, accepted);
    SendToWsKeeps(SetFlow(m, Inactive).(sessions := m.sessions + 1), Register, env.answer, accepted);
  }

  lemma OutputKeeps(m: Manager, o: Output, env: Env, accepted: Option<Connection>)
    requires Sound(m, accepted) && m.link == Open
    ensures KeepsOnOutput(m, o, OnOutput(m, o, env), accepted)
  {
    hide CountsRetries, DialsTarget, SendsNoCommand, HandedCommands, SendToWs, SendQueries, ForceReset;
    hide InitiateReconnect, HandleDisconnected, InitiateDisconnectFromTv, OptionallyPrepareForReconnect;
    match o
    case ConnectToTv(_) =>
    case PairWithTv =>
    case SendRegisterPayload => RegisterKeeps(m, env, accepted);
    case InitializeConnection => QueriesKeep(m.(pairing := false), env.queryAnswers, accepted);
    case PassCommand(c) => SendToWsKeeps(m, Command(c), env.answer, accepted);
    case DisconnectFromTv => DisconnectFromTvKeeps(m, env, accepted);
    case HandleConnectError => ConnectErrorKeeps(m, env, accepted);
    case HandleSuccessfulDisconnect => DisconnectedKeeps(m.(manualDisconnect := false), env, accepted);
    case HandleDisconnectError => DisconnectedKeeps(m.(manualDisconnect := false), env, accepted);
  }

  lemma LoseConnectionKeeps(m: Manager, env: Env, accepted: Option<Connection>)
    requires Sound(m, accepted) && m.link == Open
    ensures Keeps(m, LoseConnection(m, env), accepted)
  {
    hide CountsRetries, HandedCommands, OptionallyPrepareForReconnect;
    PrepareKeeps(m, env.firstLoad, env.secondLoad, accepted);
    SendKeeps(OptionallyPrepareForReconnect(m, env.firstLoad, env.secondLoad), Error, accepted);
  }

  lemma ResponseKeeps(m: Manager, r: TvResponse, accepted: Option<Connection>)
    requires Sound(m, accepted) && m.link == Open
    ensures Keeps(m, OnResponse(m, r), accepted)
  {
    hide CountsRetries, HandedCommands, DialsTarget, SendsNoCommand;
    SendKeeps(m, StartCommunication, accepted);
    SendKeeps(m, Pair, accepted);
    SendKeeps(m, Initialize, accepted);
    SendKeeps(m, Error, accepted);
  }

  lemma WsKeeps(m: Manager, w: WsUpdate, env: Env, accepted: Option<Connection>)
    requires Sound(m, accepted) && m.link == Open
    ensures Keeps(m, OnWs(m, w, env), accepted)
  {
    hide CountsRetries, HandedCommands, DialsTarget, SendsNoCommand, LoseConnection, OnResponse;
    LoseConnectionKeeps(m, env, accepted);
    if w.WsPayload? {
      ResponseKeeps(m, w.response, accepted);
    }
    SendKeeps(m, AttemptRegister, accepted);
    SendKeeps(m, DisconnectionComplete, accepted);
    SendKeeps(m, Error, accepted);
  }

  lemma NetworkKeeps(m: Manager, onNetwork: bool, env: Env, accepted: Option<Connection>)
    requires Sound(m, accepted) && m.link == Open
    ensures Keeps(m, OnNetwork(m, onNetwork, env), accepted)
  {
    hide CountsRetries, HandedCommands, DialsTarget, SendsNoCommand, InitiateReconnect;
    var m1 := Noticed(m, onNetwork);
    if m.checker.wasOnNetwork && !onNetwork {
      if m.status == Disconnected {
        SetFlowKeeps(m1, TvWentOffline(m1).reconnect.flow, accepted);
      } else {
        SendKeeps(m1, Error, accepted);
      }
    } else if !m.checker.wasOnNetwork && onNetwork && m.reconnect.flow == WaitingForTvOnNetwork {
      ReconnectKeeps(m1, true, env, accepted);
    }
  }

  /** For every caller message but a command and a shutdown. */
  lemma CallerKeeps(m: Manager, msg: ManagerMessage, env: Env, accepted: Option<Connection>)
    requires Sound(m, accepted) && m.link == Open && m.outbox == []
    requires !msg.SendTvCommand? && !msg.ShutDownManager?
    ensures Keeps(m, OnCaller(m, msg, env), AcceptedAfter(m, FromCaller(msg), accepted))
  {
    hide CountsRetries, DialsTarget, SendsNoCommand, HandedCommands;
    if AcceptsRequest(m, FromCaller(msg)) {
      var c := Requested(m, FromCaller(msg));
      ConnectKeeps(m, c.value, c);
    }
    match msg
    case CancelReconnect =>
      if KeepsTarget(m.reconnect.flow) {
        SetFlowKeeps(m, Cancelled, accepted);
        ResetKeeps(SetFlow(m, Cancelled), env.answer.disk, accepted);
      }
    case CallerTestConnection => SendToWsKeeps(m, TestConnection, env.answer, accepted);
    case CallerDisconnect => SendKeeps(m.(manualDisconnect := true), StateMachine.Disconnect, accepted);
    case _ =>
  }

  /** The end of the loop: the state machine task is gone, so a reset forced by a
      failed send finds no one to tell and leaves the manager a zombie. */
  lemma ShutDownOutcome(m: Manager, env: Env)
    requires m.link == Open && m.status != Zombie
    ensures var r := OnCaller(m, ShutDownManager, env);
      && !r.running && r.link == Closed && r.outbox == m.outbox
      && (r.status == Zombie <==> m.ws.joinHandle.Some? && m.ws.sender.Some? && !env.answer.sent)
  {
    hide ForceReset, InitializeManagerState;
    ResetWhileClosed(HandToWs(m.(link := Closed), ShutDown), env.answer.disk);
  }

  lemma ResetWhileClosed(m: Manager, disk: Disk)
    requires m.link == Closed
    ensures var r := ForceReset(m, disk);
      r.status == Zombie && r.link == Closed && r.outbox == m.outbox && r.ws == DropHandler(m).ws
  {
  }

  /** Everything a reset leaves while the state machine task is there. */
  lemma ResetFacts(m: Manager, disk: Disk)
    requires m.link == Open
    ensures var r := ForceReset(m, disk);
      && r.outbox == m.outbox + [Reset]
      && r.ws.joinHandle == None
      && r.ws.sender == m.ws.sender && r.ws.receiver == m.ws.receiver && r.ws.started == m.ws.started
      && r == InitializeManagerState(DropHandler(m), disk).(outbox := m.outbox + [Reset])
  {
  }

  /** A handler that sends one input and touches nothing but the initialized flag. */
  predicate SendsOne(m: Manager, r: Manager) {
    && |r.outbox| == 1 && !r.outbox[0].Connect? && !r.outbox[0].Reset? && !r.outbox[0].AttemptRegister?
    && r == m.(outbox := r.outbox, initialized := r.initialized)
  }

  lemma ResponseSendsOne(m: Manager, r: TvResponse)
    requires m.link == Open && m.outbox == []
    ensures OnResponse(m, r) == m || SendsOne(m, OnResponse(m, r))
  {
    match r
    case Volume => assert m.initialized ==> OnResponse(m, r) == m;
    case TvError(isPairingError) => assert !isPairingError ==> OnResponse(m, r) == m;
    case _ =>
  }

  lemma ResetKeepsFlags(m: Manager, disk: Disk)
    ensures ForceReset(m, disk).manualDisconnect == m.manualDisconnect
    ensures ForceReset(m, disk).running == m.running
  {
  }
}
