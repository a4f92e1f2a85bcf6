/** The manager as a value: its fields, and what every handler of the event loop
    makes of them. What the code learns from outside while a handler runs (loads
    of the on-network bit, results of channel sends, the file read from disk) is
    a parameter of the handler. */
module ManagerModel {
  import opened Wrappers
  import opened StateMachine

  // ------------------------------------------------------------------- entities

  datatype ConnectionSettings = ConnectionSettings(initialConnectRetries: bool, autoReconnect: bool)

  /** A host or device to connect to. `wsUrl` is the URL that parsing yields for
      it, or None when it cannot be parsed; `hasAddress` says whether its host is an
      IP address rather than a name. */
  datatype Connection = Connection(name: string, wsUrl: Option<Url>, hasAddress: bool, settings: ConnectionSettings)

  datatype Flow = Active | Cancelled | Inactive | WaitingForTvOnNetwork

  /** The manager's end of the channel to the state machine task. */
  datatype FsmLink = NotStarted | Open | Closed

  /** Messages for the WebSocket handler. */
  datatype WsMessage = ShutDown | Register | Query(index: nat) | Command(command: TvCommand) | TestConnection

  datatype Handed = Handed(handler: nat, message: WsMessage)

  /** What the reconnect flow did, in order: announced a status, or retried, at
      once (None) or after the delay for a count of attempts. */
  datatype Mark = FlowSet(flow: Flow) | Retried(delayFor: Option<nat>)

  /** The reconnect flow: its status, its counter, and its history. */
  datatype Reconnect = Reconnect(flow: Flow, attempts: nat, marks: seq<Mark>)

  /** The manager's ends of the channels to WebSocket handlers. Handlers are
      numbered as they are started. */
  datatype WsEnds = WsEnds(
    sender: Option<nat>,      // the handler the sender belongs to
    receiver: Option<nat>,    // the handler the receiver belongs to
    joinHandle: Option<nat>,  // the handler not yet awaited
    started: seq<Url>,        // history: the URL of every handler started
    log: seq<Handed>)         // history: every message handed to a sender

  /** The network checker, and what the loop last heard from it. */
  datatype Checker = Checker(
    operational: bool,
    pingTarget: bool,    // it has been given an address to ping
    wasOnNetwork: bool)

  datatype Manager = Manager(
    status: State,
    connection: Option<Connection>,
    lastGood: Option<Connection>,
    initialized: bool,
    manualDisconnect: bool,
    pairing: bool,
    reconnect: Reconnect,
    sessions: nat,
    wsUrl: Option<Url>,
    ws: WsEnds,
    link: FsmLink,
    checker: Checker,
    running: bool,
    outbox: seq<Input>)       // inputs sent by the handler that is running

  // ---------------------------------------------------------------- environment

  /** One reading of the persisted state. */
  datatype Disk = Unreadable | Stored(wsUrl: Option<Url>)

  /** How one send to the handler ends, and the file read if that forces a reset. */
  datatype Answer = Answer(sent: bool, disk: Disk)

  /** What wakes the wait before a retry: the timer that gives feedback, with the
      milliseconds elapsed unless the clock was set back, or the one that ends it. */
  datatype WaitTick = Feedback(elapsed: Option<nat>) | RetryDue

  /** What one handler of the event loop may learn from outside. */
  datatype Env = Env(
    firstLoad: bool,      // the on-network bit, as the retry preparation reads it
    secondLoad: bool,     // ... and reads it again
    reconnectLoad: bool,  // the on-network bit, as a reconnect attempt reads it
    answer: Answer,
    resetDisk: Disk,      // the file read by a reset inside a reconnect attempt
    queryAnswers: seq<Answer>,
    waitTicks: seq<WaitTick>)

  const QUERY_COUNT: nat := 6

  predicate Complete(env: Env) {
    |env.queryAnswers| == QUERY_COUNT
  }

  /** Pings are sent, so the on-network bit can change and notifications can come. */
  predicate Pings(m: Manager) {
    m.checker.operational && m.checker.pingTarget
  }

  /** Every attempt is prevented: the checker works, but has nothing to ping. */
  predicate Barred(m: Manager) {
    m.checker.operational && !m.checker.pingTarget
  }

  /** What a handler can learn: without pings the on-network bit has never been set. */
  predicate Plausible(m: Manager, env: Env) {
    Complete(env) && (Pings(m) || (!env.firstLoad && !env.secondLoad && !env.reconnectLoad))
  }

  // -------------------------------------------------------------------- messages

  datatype ManagerMessage =
    | CancelReconnect
    | ConnectTo(connection: Connection)
    | ConnectLastGoodConnection
    | CallerDisconnect
    | SendTvCommand(command: TvCommand)
    | ShutDownManager
    | CallerTestConnection
    | OtherRequest  // Discover, EmitAllState, TestTvOnNetwork, WakeLastSeenTv

  datatype TvResponse =
    | Volume
    | PairPrompt
    | PairUnexpected
    | Details  // any other command response
    | Registered
    | TvError(isPairingError: bool)
    | Unrecognized

  datatype WsUpdate =
    | WsIdle
    | WsConnected
    | WsDisconnected
    | WsConnectError
    | WsMessageReadError
    | WsServerClosedConnection
    | WsPayload(response: TvResponse)
    | WsConnectionOk(ok: bool)

  // --------------------------------------------------------------------- setters

  function Announce(r: Reconnect, f: Flow): Reconnect {
    Reconnect(f, if r.flow != Active then 0 else r.attempts, r.marks + [FlowSet(f)])
  }

  function SetFlow(m: Manager, f: Flow): Manager {
    m.(reconnect := Announce(m.reconnect, f))
  }

  // --------------------------------------------------------------------- senders

  function SendToFsm(m: Manager, i: Input): Manager {
    match m.link
    case NotStarted => m
    case Open => m.(outbox := m.outbox + [i])
    case Closed => m.(status := Zombie)
  }

  /** A message put in the sender, if there is one. */
  function Hand(ws: WsEnds, w: WsMessage): WsEnds {
    ws.(log := ws.log + (if ws.sender.Some? then [Handed(ws.sender.value, w)] else []))
  }

  function HandToWs(m: Manager, w: WsMessage): Manager {
    m.(ws := Hand(m.ws, w))
  }

  function SendToWs(m: Manager, w: WsMessage, a: Answer): Manager {
    if m.ws.sender.None? then m
    else if a.sent then HandToWs(m, w)
    else ForceReset(HandToWs(m, w), a.disk)
  }

  // ---------------------------------------------------------------------- resets

  function ImportedUrl(current: Option<Url>, disk: Disk): Option<Url> {
    match disk
    case Unreadable => current
    case Stored(wsUrl) => wsUrl
  }

  predicate KeepsTarget(f: Flow) {
    f == Active || f == WaitingForTvOnNetwork
  }

  /** Back to "no TV seen", except for what a reconnect flow needs; a cancelled
      flow ends here, and the file read last has its say on the URL. */
  function InitializeManagerState(m: Manager, disk: Disk): Manager {
    var keep := KeepsTarget(m.reconnect.flow);
    m.(initialized := false,
       connection := if keep then m.connection else None,
       wsUrl := ImportedUrl(if keep then m.wsUrl else None, disk),
       sessions := if keep then m.sessions else 0,
       pairing := keep && m.pairing,
       reconnect := if m.reconnect.flow == Cancelled then Announce(m.reconnect, Inactive) else m.reconnect)
  }

  function AwaitHandler(m: Manager): Manager {
    m.(ws := m.ws.(joinHandle := None))
  }

  function DropHandler(m: Manager): Manager {
    m.(ws := Hand(m.ws, ShutDown).(joinHandle := None))
  }

  function ForceReset(m: Manager, disk: Disk): Manager {
    SendToFsm(InitializeManagerState(DropHandler(m), disk), Reset)
  }

  // -------------------------------------------------------------- retry settings

  predicate InitialConnectRetries(m: Manager) {
    m.connection.Some? && m.connection.value.settings.initialConnectRetries
  }

  predicate AutoReconnect(m: Manager) {
    m.connection.Some? && m.connection.value.settings.autoReconnect
  }

  function OptionallyPrepareForReconnect(m: Manager, firstLoad: bool, secondLoad: bool): Manager {
    if m.manualDisconnect || m.reconnect.flow == Cancelled then m
    else
      SetFlow(m,
        if !AutoReconnect(m) then Inactive
        else if firstLoad then Active
        else if !secondLoad && !m.checker.operational then Active
        else WaitingForTvOnNetwork)
  }

  predicate ShouldRetryConnectFailure(m: Manager) {
    || (InitialConnectRetries(m) && m.sessions == 0)
    || (AutoReconnect(m) && m.sessions > 0)
  }

  // ------------------------------------------------------------------ connecting

  /** Whether a request to connect is accepted. */
  predicate CanConnect(m: Manager, c: Connection) {
    m.status == Disconnected && m.link != NotStarted && c.wsUrl.Some?
  }

  /** The connection is remembered, and its address given to the checker. */
  function Targeting(m: Manager, c: Connection): Manager {
    m.(connection := Some(c), checker := m.checker.(pingTarget := m.checker.pingTarget || c.hasAddress))
  }

  function InitiateConnectToTv(m: Manager, c: Connection): Manager {
    if !CanConnect(m, c) then m
    else
      var m1 := Targeting(m, c);
      var m2 := SetFlow(m1, if InitialConnectRetries(m1) then Active else Inactive);
      SendToFsm(m2, Connect(c.wsUrl.value)).(wsUrl := c.wsUrl)
  }

  function StartWebSocketHandler(m: Manager, url: Url): Manager {
    var id := |m.ws.started|;
    m.(ws := WsEnds(Some(id), Some(id), Some(id), m.ws.started + [url], m.ws.log))
  }

  function SendQueries(m: Manager, answers: seq<Answer>): Manager {
    if answers == [] then m
    else
      var n := |answers| - 1;
      SendToWs(SendQueries(m, answers[..n]), Query(n), answers[n])
  }

  function InitializeTvConnection(m: Manager, answers: seq<Answer>): Manager {
    var m1 := SendQueries(m, answers);
    if m1.connection.Some? then m1.(lastGood := m1.connection) else m1
  }

  // --------------------------------------------------------------- disconnecting

  function InitiateDisconnectFromTv(m: Manager, a: Answer): Manager {
    if m.ws.joinHandle.Some? then SendToWs(m, ShutDown, a) else m
  }

  function HandleDisconnected(m: Manager, env: Env): Manager {
    var m1 := InitializeManagerState(AwaitHandler(m), env.answer.disk);
    if m1.reconnect.flow != Active then m1
    else if m1.pairing then SetFlow(m1, Inactive).(pairing := false)
    else InitiateReconnect(m1, false, env)
  }

  function CountRetry(r: Reconnect, immediate: bool): Reconnect {
    r.(attempts := r.attempts + 1, marks := r.marks + [Retried(if immediate then None else Some(r.attempts))])
  }

  /** The retry itself: the wait, the count, and the connect. */
  function Retry(m: Manager, c: Connection, immediate: bool): Manager {
    InitiateConnectToTv(m.(reconnect := CountRetry(m.reconnect, immediate)), c)
  }

  function InitiateReconnect(m: Manager, immediate: bool, env: Env): Manager {
    if !env.reconnectLoad && m.checker.operational then m
    else
      var m1 := SetFlow(m, Active);
      if m1.wsUrl.None? then ForceReset(SetFlow(m1, Inactive), env.resetDisk)
      else if m1.connection.None? then m1
      else Retry(m1, m1.connection.value, immediate)
  }

  // -------------------------------------------------------------- the event loop

  function OnCaller(m: Manager, msg: ManagerMessage, env: Env): Manager {
    match msg
    case CancelReconnect =>
      if !KeepsTarget(m.reconnect.flow) then m
      else
        var m1 := SetFlow(m, Cancelled);
        if m.reconnect.flow == WaitingForTvOnNetwork then ForceReset(m1, env.answer.disk) else m1
    case ConnectTo(c) => InitiateConnectToTv(m, c)
    case ConnectLastGoodConnection =>
      if m.lastGood.Some? then InitiateConnectToTv(m, m.lastGood.value) else m
    case CallerDisconnect => SendToFsm(m.(manualDisconnect := true), StateMachine.Disconnect)
    case SendTvCommand(c) => SendToFsm(m, SendCommand(c))
    case ShutDownManager => InitiateDisconnectFromTv(m.(link := Closed), env.answer).(running := false)
    case CallerTestConnection => if m.initialized then SendToWs(m, TestConnection, env.answer) else m
    case OtherRequest => m
  }

  function OnOutput(m: Manager, o: Output, env: Env): Manager {
    match o
    case ConnectToTv(url) => StartWebSocketHandler(m, url)
    case SendRegisterPayload =>
      var m1 := SetFlow(m, Inactive);
      SendToWs(m1.(sessions := m1.sessions + 1), Register, env.answer)
    case PairWithTv => m.(pairing := true)
    case InitializeConnection => InitializeTvConnection(m.(pairing := false), env.queryAnswers)
    case PassCommand(c) => SendToWs(m, Command(c), env.answer)
    case DisconnectFromTv =>
      InitiateDisconnectFromTv(OptionallyPrepareForReconnect(m, env.firstLoad, env.secondLoad), env.answer)
    case HandleSuccessfulDisconnect => HandleDisconnected(m.(manualDisconnect := false), env)
    case HandleDisconnectError => HandleDisconnected(m.(manualDisconnect := false), env)
    case HandleConnectError =>
      var m1 := ForceReset(m, env.answer.disk);
      if !ShouldRetryConnectFailure(m1) then m1
      else match m1.reconnect.flow
        case Active => InitiateReconnect(m1, false, env)
        case Cancelled => SetFlow(m1, Inactive)
        case _ => m1
  }

  function OnUpdate(m: Manager, u: Update, env: Env): Manager {
    match u
    case NewState(s) => m.(status := s)
    case Emitted(o) => OnOutput(m, o, env)
    case TransitionError(_, _) => m
  }

  function OnResponse(m: Manager, r: TvResponse): Manager {
    if m.link == NotStarted then m
    else match r
      case Volume => if m.initialized then m else SendToFsm(m, StartCommunication).(initialized := true)
      case PairPrompt => SendToFsm(m, Pair)
      case PairUnexpected => SendToFsm(m, Error)
      case Registered => SendToFsm(m, Initialize)
      case TvError(isPairingError) => if isPairingError then SendToFsm(m, Error) else m
      case Details => m
      case Unrecognized => m
  }

  function OnWs(m: Manager, w: WsUpdate, env: Env): Manager {
    match w
    case WsIdle => m
    case WsConnected => SendToFsm(m, AttemptRegister)
    case WsDisconnected => SendToFsm(m, DisconnectionComplete)
    case WsConnectError => LoseConnection(m, env)
    case WsMessageReadError => LoseConnection(m, env)
    case WsServerClosedConnection => LoseConnection(m, env)
    case WsPayload(r) => OnResponse(m, r)
    case WsConnectionOk(ok) => if ok then m else SendToFsm(m, Error)
  }

  function LoseConnection(m: Manager, env: Env): Manager {
    SendToFsm(OptionallyPrepareForReconnect(m, env.firstLoad, env.secondLoad), Error)
  }

  function TvWentOffline(m: Manager): Manager {
    if m.status == Disconnected
    then SetFlow(m, if AutoReconnect(m) then WaitingForTvOnNetwork else Inactive)
    else SendToFsm(m, Error)
  }

  function Noticed(m: Manager, onNetwork: bool): Manager {
    m.(checker := m.checker.(wasOnNetwork := onNetwork))
  }

  function OnNetwork(m: Manager, onNetwork: bool, env: Env): Manager {
    var m1 := Noticed(m, onNetwork);
    if m.checker.wasOnNetwork && !onNetwork then TvWentOffline(m1)
    else if !m.checker.wasOnNetwork && onNetwork && m.reconnect.flow == WaitingForTvOnNetwork
    then InitiateReconnect(m1, true, env)
    else m1
  }

  /** Everything the loop can be woken by except the state machine. */
  datatype External = FromCaller(msg: ManagerMessage) | FromWs(update: WsUpdate) | FromNetwork(onNetwork: bool)

  /** The connection the caller's request is for, if it is one. */
  function Requested(m: Manager, ev: External): Option<Connection> {
    if !ev.FromCaller? then None
    else match ev.msg
      case ConnectTo(c) => Some(c)
      case ConnectLastGoodConnection => m.lastGood
      case _ => None
  }

  predicate AcceptsRequest(m: Manager, ev: External) {
    Requested(m, ev).Some? && CanConnect(m, Requested(m, ev).value)
  }

  /** The latest connection accepted from the caller. */
  function AcceptedAfter(m: Manager, ev: External, accepted: Option<Connection>): Option<Connection> {
    if AcceptsRequest(m, ev) then Requested(m, ev) else accepted
  }

  function OnExternal(m: Manager, ev: External, env: Env): Manager {
    match ev
    case FromCaller(msg) => OnCaller(m, msg, env)
    case FromWs(w) => OnWs(m, w, env)
    case FromNetwork(onNetwork) => OnNetwork(m, onNetwork, env)
  }

  // ---------------------------------------------------------------------- startup

  function NewManager(disk: Disk): Manager {
    Manager(Disconnected, None, None, false, false, false, Reconnect(Inactive, 0, []), 0,
            ImportedUrl(None, disk), WsEnds(None, None, None, [], []), NotStarted, Checker(false, false, false), false, [])
  }

  /** The manager when its event loop begins. */
  function StartedManager(m: Manager, disk: Disk, operational: bool): Manager {
    var m1 := InitializeManagerState(m.(link := Open), disk);
    var m2 := SetFlow(m1, Inactive);
    m2.(checker := Checker(operational, m2.checker.pingTarget, false), running := true)
  }
}
