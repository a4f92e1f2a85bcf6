/** What a target without any setting to reconnect means for the reconnect flow,
    whatever the interleaving. */
module PlainProperties {
  import opened StateMachine
  import opened ManagerModel
  import opened ManagerFacts

  /** A setting that starts a reconnect flow is on. */
  predicate Retries(c: Connection) {
    c.settings.initialConnectRetries || c.settings.autoReconnect
  }

  /** There is no flow, and no setting that starts one again. */
  predicate Plain(m: Manager) {
    m.reconnect.flow == Inactive && !AutoReconnect(m)
  }

  predicate PlainlySilent(m: Manager) {
    Plain(m) && NoConnect(m.outbox)
  }

  // --------------------------------------------------------------- the handlers

  lemma ResetStaysPlain(m: Manager, disk: Disk)
    requires PlainlySilent(m)
    ensures PlainlySilent(ForceReset(m, disk))
  {
  }

  lemma SendStaysPlain(m: Manager, w: WsMessage, a: Answer)
    requires PlainlySilent(m)
    ensures PlainlySilent(SendToWs(m, w, a))
  {
    ResetStaysPlain(HandToWs(m, w), a.disk);
    hide ForceReset;
  }

  lemma {:induction false} QueriesStayPlain(m: Manager, answers: seq<Answer>)
    requires PlainlySilent(m)
    ensures PlainlySilent(SendQueries(m, answers))
    decreases |answers|
  {
    hide SendToWs, Plain;
    if answers != [] {
      var n := |answers| - 1;
      QueriesStayPlain(m, answers[..n]);
      SendStaysPlain(SendQueries(m, answers[..n]), Query(n), answers[n]);
    }
  }

  lemma PrepareStaysPlain(m: Manager, env: Env)
    requires PlainlySilent(m)
    ensures PlainlySilent(OptionallyPrepareForReconnect(m, env.firstLoad, env.secondLoad))
  {
  }

  lemma FsmStaysPlain(m: Manager, i: Input)
    requires PlainlySilent(m) && !i.Connect?
    ensures PlainlySilent(SendToFsm(m, i))
  {
  }

  /** No handler attempts to reconnect without a flow. */
  lemma CompletionStaysPlain(m: Manager, env: Env)
    requires PlainlySilent(m)
    ensures PlainlySilent(HandleDisconnected(m.(manualDisconnect := false), env))
  {
    hide InitiateReconnect;
  }

  lemma FailureStaysPlain(m: Manager, env: Env)
    requires PlainlySilent(m)
    ensures PlainlySilent(OnOutput(m, HandleConnectError, env))
  {
    ResetStaysPlain(m, env.answer.disk);
    hide ForceReset, InitiateReconnect;
  }

  lemma OutputStaysPlain(m: Manager, o: Output, env: Env)
    requires PlainlySilent(m)
    ensures PlainlySilent(OnOutput(m, o, env))
  {
    hide SendToWs, SendQueries, OptionallyPrepareForReconnect, HandleDisconnected, ForceReset, InitiateReconnect;
    match o
    case ConnectToTv(_) =>
    case SendRegisterPayload =>
      SendStaysPlain(SetFlow(m, Inactive).(sessions := m.sessions + 1), Register, env.answer);
    case PairWithTv =>
    case InitializeConnection => QueriesStayPlain(m.(pairing := false), env.queryAnswers);
    case PassCommand(c) => SendStaysPlain(m, Command(c), env.answer);
    case DisconnectFromTv =>
      PrepareStaysPlain(m, env);
      SendStaysPlain(OptionallyPrepareForReconnect(m, env.firstLoad, env.secondLoad), ShutDown, env.answer);
    case HandleSuccessfulDisconnect => CompletionStaysPlain(m, env);
    case HandleDisconnectError => CompletionStaysPlain(m, env);
    case HandleConnectError => FailureStaysPlain(m, env);
  }

  lemma ResponseStaysPlain(m: Manager, r: TvResponse)
    requires PlainlySilent(m)
    ensures PlainlySilent(OnResponse(m, r))
  {
  }

  lemma HearingStaysPlain(m: Manager, u: WsUpdate, env: Env)
    requires PlainlySilent(m)
    ensures PlainlySilent(OnWs(m, u, env))
  {
    PrepareStaysPlain(m, env);
    hide OptionallyPrepareForReconnect, OnResponse, SendToFsm, PlainlySilent;
    match u
    case WsPayload(r) => ResponseStaysPlain(m, r);
    case WsIdle =>
    case WsConnected => FsmStaysPlain(m, AttemptRegister);
    case WsDisconnected => FsmStaysPlain(m, DisconnectionComplete);
    case WsConnectionOk(_) => FsmStaysPlain(m, Error);
    case _ => FsmStaysPlain(OptionallyPrepareForReconnect(m, env.firstLoad, env.secondLoad), Error);
  }

  lemma NoticingStaysPlain(m: Manager, onNetwork: bool, env: Env)
    requires PlainlySilent(m)
    ensures PlainlySilent(OnNetwork(m, onNetwork, env))
  {
    hide InitiateReconnect;
  }

  lemma AskingStaysPlain(m: Manager, msg: ManagerMessage, env: Env)
    requires PlainlySilent(m) && !AcceptsRequest(m, FromCaller(msg))
    ensures PlainlySilent(OnCaller(m, msg, env))
  {
    hide SendToWs, ForceReset;
    match msg
    case ShutDownManager => SendStaysPlain(m.(link := Closed), ShutDown, env.answer);
    case CallerTestConnection => SendStaysPlain(m, TestConnection, env.answer);
    case _ =>
  }

  lemma RequestIsPlain(m: Manager, c: Connection)
    requires CanConnect(m, c) && !Retries(c)
    ensures Plain(InitiateConnectToTv(m, c))
  {
  }

  /** One handler, no request accepted. */
  lemma UpdateStaysPlain(m: Manager, u: Update, env: Env)
    requires PlainlySilent(m)
    ensures PlainlySilent(OnUpdate(m, u, env))
  {
    hide OnOutput;
    if u.Emitted? {
      OutputStaysPlain(m, u.output, env);
    }
  }

  lemma ExternalStaysPlain(m: Manager, ev: External, env: Env)
    requires PlainlySilent(m) && !AcceptsRequest(m, ev)
    ensures PlainlySilent(OnExternal(m, ev, env))
  {
    hide PlainlySilent, OnWs, OnCaller, OnNetwork, AcceptsRequest;
    match ev
    case FromCaller(msg) => AskingStaysPlain(m, msg, env);
    case FromWs(u) => HearingStaysPlain(m, u, env);
    case FromNetwork(onNetwork) => NoticingStaysPlain(m, onNetwork, env);
  }
}
