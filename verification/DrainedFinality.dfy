/** When a cancelled reconnect, or a disconnect the caller asked for, is final:
    no Connect is sent any more until the caller asks for one. */
module DrainedFinality {
  import opened Wrappers
  import opened StateMachine
  import opened ManagerModel
  import opened ManagerFacts
  import opened Async
  import opened Drained
  import opened DrainedInvariant
  import opened DrainedSteps

  // ------------------------------------------------------------- quiet systems

  /** The flow is over and has no target. */
  predicate Idle(m: Manager) {
    m.reconnect.flow == Inactive && m.connection == None
  }

  predicate Ending(m: Manager) {
    m.reconnect.flow == Cancelled || (m.manualDisconnect && m.reconnect.flow == Inactive)
  }

  predicate Over(m: Manager) {
    m.reconnect.flow == Cancelled || m.reconnect.flow == Inactive
  }

  /** What keeps the system from ever dialling by itself: it ends with no target. */
  predicate QuietIn(m: Manager, fsm: State, tail: Option<Output>) {
    match tail
    case None =>
      (match fsm
       case Disconnected => Idle(m)
       case Connecting(_) => Ending(m)
       case Disconnecting(_) => Ending(m)
       case _ => m.manualDisconnect && m.reconnect.flow == Inactive)
    case Some(ConnectToTv(_)) => false
    case Some(SendRegisterPayload) => Ending(m)
    case Some(HandleConnectError) => Over(m)
    case Some(HandleSuccessfulDisconnect) => Over(m)
    case Some(HandleDisconnectError) => Over(m)
    case Some(_) => m.manualDisconnect && m.reconnect.flow == Inactive
  }

  predicate Quiet(b: Settled) {
    QuietIn(b.m, b.fsm, Tail(b.pend))
  }

  /** The step registers with the TV although no disconnect was asked for. */
  predicate Registers(b: Settled, step: Step) {
    step.HandleUpdate? && b.pend != [] && b.pend[0] == Emitted(SendRegisterPayload)
  }

  predicate Requests(b: Settled, step: Step) {
    step.HandleExternal? && AcceptsRequest(b.m, step.event)
  }

  lemma {:induction false} QuietAfterResets(m: Manager, fsm: State)
    requires AllResets(m.outbox) && Real(fsm)
    requires m.outbox == [] ==> QuietIn(m, fsm, None)
    requires m.outbox != [] ==> Idle(m)
    ensures Quiet(Deliver(m, fsm, []))
  {
    hide Tail, RunUpdates, Emit, Next;
    RunResets(fsm, m.outbox);
    TailOfStates(RunUpdates(fsm, m.outbox));
    assert [] + RunUpdates(fsm, m.outbox) == RunUpdates(fsm, m.outbox);
  }

  lemma QuietAfterInput(m: Manager, fsm: State, i: Input)
    requires m.outbox == [i] && QuietIn(m, Next(fsm, i), Tail(Emit(fsm, i)))
    ensures Quiet(Deliver(m, fsm, []))
  {
    hide RunUpdates, Emit, Next, Tail;
    RunOne(fsm, i);
    assert [] + Emit(fsm, i) == Emit(fsm, i);
  }

  /** A disconnect asked for is remembered until it is complete. */
  predicate Remembers(m: Manager, r: Manager, fsm: State) {
    m.manualDisconnect && fsm != Disconnected ==> r.manualDisconnect
  }

  /** What one handler of a quiet system leaves: a quiet system, no Connect sent,
      and an Inactive flow where there was one. */
  predicate StaysQuiet(m: Manager, r: Manager, fsm: State) {
    && Quiet(Deliver(r, fsm, []))
    && NoConnect(r.outbox)
    && (m.reconnect.flow == Inactive ==> r.reconnect.flow == Inactive)
    && Remembers(m, r, fsm)
  }

  lemma ResetIdles(m: Manager, disk: Disk)
    requires Over(m) && m.link == Open
    ensures Idle(ForceReset(m, disk)) && ForceReset(m, disk).link == Open
    ensures ForceReset(m, disk).manualDisconnect == m.manualDisconnect
    ensures ForceReset(m, disk).outbox == m.outbox + [Reset]
  {
  }

  lemma ResetQuiets(m0: Manager, m: Manager, disk: Disk, fsm: State)
    requires Over(m) && m.outbox == [] && m.link == Open && Real(fsm) && Remembers(m0, m, fsm)
    ensures StaysQuiet(m0, ForceReset(m, disk), fsm)
    ensures Idle(ForceReset(m, disk)) && ForceReset(m, disk).outbox == [Reset]
  {
    hide Quiet, Deliver, ForceReset;
    ResetIdles(m, disk);
    QuietAfterResets(ForceReset(m, disk), fsm);
  }

  lemma SendQuiets(m0: Manager, m: Manager, w: WsMessage, a: Answer, fsm: State)
    requires Over(m) && m.outbox == [] && m.link == Open && Real(fsm) && Remembers(m0, m, fsm)
    requires QuietIn(m, fsm, None) && (m0.reconnect.flow == Inactive ==> m.reconnect.flow == Inactive)
    ensures StaysQuiet(m0, SendToWs(m, w, a), fsm)
  {
    hide Quiet, Deliver, ForceReset;
    if m.ws.sender.None? || a.sent {
      QuietAfterResets(SendToWs(m, w, a), fsm);
    } else {
      ResetQuiets(m0, HandToWs(m, w), a.disk, fsm);
    }
  }

  // ---------------------------------------------------------------- the outputs

  predicate QueriesQuiet(m: Manager, r: Manager) {
    && AllResets(r.outbox) && r.link == Open && r.manualDisconnect == m.manualDisconnect
    && (if r.outbox == [] then r.reconnect == m.reconnect && r.connection == m.connection else Idle(r))
  }

  lemma {:induction false} QuerySequence(m: Manager, answers: seq<Answer>)
    requires m.outbox == [] && m.link == Open && m.reconnect.flow == Inactive
    ensures QueriesQuiet(m, SendQueries(m, answers))
    decreases |answers|
  {
    if answers != [] {
      var n := |answers| - 1;
      QuerySequence(m, answers[..n]);
      QueryQuiets(m, SendQueries(m, answers[..n]), Query(n), answers[n]);
    }
  }

  lemma QueryQuiets(m: Manager, r: Manager, w: WsMessage, a: Answer)
    requires QueriesQuiet(m, r) && m.reconnect.flow == Inactive
    ensures QueriesQuiet(m, SendToWs(r, w, a))
  {
    hide ForceReset;
    if !a.sent {
      ResetIdles(HandToWs(r, w), a.disk);
    }
  }

  lemma DisconnectedQuiets(m: Manager, env: Env)
    requires Over(m) && m.outbox == []
    ensures StaysQuiet(m, HandleDisconnected(m, env), Disconnected)
  {
    hide Quiet, Deliver, InitiateReconnect;
    QuietAfterResets(HandleDisconnected(m, env), Disconnected);
  }

  lemma ConnectErrorQuiets(m: Manager, env: Env)
    requires Over(m) && m.outbox == [] && m.link == Open
    ensures StaysQuiet(m, OnOutput(m, HandleConnectError, env), Disconnected)
  {
    hide Quiet, Deliver, InitiateReconnect, ForceReset;
    ResetQuiets(m, m, env.answer.disk, Disconnected);
  }

  lemma InitializeQuiets(m: Manager, env: Env, fsm: State)
    requires fsm.Initializing? && m.manualDisconnect && m.reconnect.flow == Inactive && m.outbox == [] && m.link == Open
    ensures StaysQuiet(m, OnOutput(m, InitializeConnection, env), fsm)
  {
    hide Quiet, Deliver, SendQueries;
    QuerySequence(m.(pairing := false), env.queryAnswers);
    QuietAfterResets(OnOutput(m, InitializeConnection, env), fsm);
  }

  lemma OutputQuiets(m: Manager, o: Output, env: Env, fsm: State)
    requires Handling(m, fsm, o) && QuietIn(m, fsm, Some(o))
    requires o == SendRegisterPayload ==> m.manualDisconnect
    ensures StaysQuiet(m, OnOutput(m, o, env), fsm)
  {
    hide Quiet, Deliver, SendToWs, HandleDisconnected, ForceReset, InitiateReconnect, InitializeTvConnection;
    match o
    case PairWithTv => QuietAfterResets(OnOutput(m, o, env), fsm);
    case SendRegisterPayload =>
      SendQuiets(m, SetFlow(m, Inactive).(sessions := m.sessions + 1), Register, env.answer, fsm);
    case InitializeConnection => InitializeQuiets(m, env, fsm);
    case PassCommand(c) => SendQuiets(m, m, Command(c), env.answer, fsm);
    case DisconnectFromTv => SendQuiets(m, m, ShutDown, env.answer, fsm);
    case HandleConnectError => ConnectErrorQuiets(m, env);
    case HandleSuccessfulDisconnect => DisconnectedQuiets(m.(manualDisconnect := false), env);
    case HandleDisconnectError => DisconnectedQuiets(m.(manualDisconnect := false), env);
    case ConnectToTv(_) =>
  }

  // --------------------------------------------------------- the outside events

  predicate RestingQuietly(m: Manager, fsm: State) {
    Resting(m, fsm) && QuietIn(m, fsm, None)
  }

  lemma RestQuiets(m0: Manager, m: Manager, fsm: State)
    requires m.outbox == [] && Real(fsm) && QuietIn(m, fsm, None) && Remembers(m0, m, fsm)
    requires m0.reconnect.flow == Inactive ==> m.reconnect.flow == Inactive
    ensures StaysQuiet(m0, m, fsm)
  {
    hide Quiet, Deliver;
    QuietAfterResets(m, fsm);
  }

  /** One input sent from rest, the flow untouched. */
  lemma InputQuiets(m0: Manager, m: Manager, fsm: State, i: Input)
    requires m.outbox == [i] && !i.Connect? && !i.Reset? && Real(fsm)
    requires QuietIn(m, fsm, None) && InPhase(m, fsm) && Remembers(m0, m, fsm)
    requires m0.reconnect.flow == Inactive ==> m.reconnect.flow == Inactive
    ensures StaysQuiet(m0, m, fsm)
  {
    hide Quiet, Deliver;
    QuietAfterInput(m, fsm, i);
  }

  /** One input sent from rest, nothing else of interest touched. */
  lemma SendingOneQuiets(m: Manager, m1: Manager, fsm: State)
    requires RestingQuietly(m, fsm) && SendsOne(m, m1)
    ensures StaysQuiet(m, m1, fsm)
  {
    hide StaysQuiet;
    InputQuiets(m, m1, fsm, m1.outbox[0]);
  }

  lemma ResponseQuiets(m: Manager, r: TvResponse, fsm: State)
    requires RestingQuietly(m, fsm)
    ensures StaysQuiet(m, OnResponse(m, r), fsm)
  {
    RestQuiets(m, m, fsm);
    ResponseSendsOne(m, r);
    hide StaysQuiet, RestingQuietly, SendsOne, OnResponse;
    if OnResponse(m, r) != m {
      SendingOneQuiets(m, OnResponse(m, r), fsm);
    }
  }

  lemma PreparingQuiets(m: Manager, env: Env, fsm: State)
    requires RestingQuietly(m, fsm)
    ensures var r := OptionallyPrepareForReconnect(m, env.firstLoad, env.secondLoad);
      && QuietIn(r, fsm, None) && InPhase(r, fsm)
      && (m.reconnect.flow == Inactive ==> r.reconnect.flow == Inactive)
      && r.outbox == [] && r.link == Open && r.manualDisconnect == m.manualDisconnect
  {
    hide Grounded;
  }

  lemma LoseConnectionQuiets(m: Manager, env: Env, fsm: State)
    requires RestingQuietly(m, fsm)
    ensures StaysQuiet(m, LoseConnection(m, env), fsm)
  {
    PreparingQuiets(m, env, fsm);
    hide StaysQuiet, OptionallyPrepareForReconnect;
    var r := OptionallyPrepareForReconnect(m, env.firstLoad, env.secondLoad);
    assert LoseConnection(m, env) == r.(outbox := r.outbox + [Error]);
    assert r.outbox + [Error] == [Error];
    InputQuiets(m, r.(outbox := [Error]), fsm, Error);
  }

  lemma WsQuiets(m: Manager, w: WsUpdate, env: Env, fsm: State)
    requires RestingQuietly(m, fsm)
    ensures StaysQuiet(m, OnWs(m, w, env), fsm)
  {
    hide StaysQuiet, LoseConnection, OnResponse;
    var m1 := OnWs(m, w, env);
    match w
    case WsPayload(r) => ResponseQuiets(m, r, fsm);
    case WsConnectError => LoseConnectionQuiets(m, env, fsm);
    case WsMessageReadError => LoseConnectionQuiets(m, env, fsm);
    case WsServerClosedConnection => LoseConnectionQuiets(m, env, fsm);
    case WsIdle => RestQuiets(m, m, fsm);
    case WsConnected => InputQuiets(m, m1, fsm, AttemptRegister);
    case WsDisconnected => InputQuiets(m, m1, fsm, DisconnectionComplete);
    case WsConnectionOk(ok) =>
      if ok {
        RestQuiets(m, m, fsm);
      } else {
        InputQuiets(m, m1, fsm, Error);
      }
  }

  lemma OfflineQuiets(m0: Manager, m: Manager, fsm: State)
    requires RestingQuietly(m, fsm) && m0.reconnect == m.reconnect && Remembers(m0, m, fsm)
    ensures StaysQuiet(m0, TvWentOffline(m), fsm)
  {
    assert Real(fsm);
    hide StaysQuiet, Grounded;
    if fsm == Disconnected {
      RestQuiets(m0, TvWentOffline(m), fsm);
    } else {
      InputQuiets(m0, TvWentOffline(m), fsm, Error);
    }
  }

  lemma NetworkQuiets(m: Manager, onNetwork: bool, env: Env, fsm: State)
    requires RestingQuietly(m, fsm)
    ensures StaysQuiet(m, OnNetwork(m, onNetwork, env), fsm)
  {
    hide StaysQuiet, InitiateReconnect, TvWentOffline;
    var m1 := Noticed(m, onNetwork);
    if m.checker.wasOnNetwork && !onNetwork {
      OfflineQuiets(m, m1, fsm);
    } else {
      RestQuiets(m, m1, fsm);
    }
  }

  lemma CallerQuiets(m: Manager, msg: ManagerMessage, env: Env, fsm: State)
    requires RestingQuietly(m, fsm) && msg != ShutDownManager && !AcceptsRequest(m, FromCaller(msg))
    ensures StaysQuiet(m, OnCaller(m, msg, env), fsm)
  {
    hide StaysQuiet, SendToWs, ForceReset;
    var m1 := OnCaller(m, msg, env);
    match msg
    case CallerDisconnect => InputQuiets(m, m1, fsm, StateMachine.Disconnect);
    case SendTvCommand(c) => InputQuiets(m, m1, fsm, SendCommand(c));
    case CallerTestConnection =>
      if m.initialized {
        SendQuiets(m, m, TestConnection, env.answer, fsm);
      } else {
        RestQuiets(m, m, fsm);
      }
    case CancelReconnect => RestQuiets(m, m, fsm);
    case ConnectTo(_) => RestQuiets(m, m, fsm);
    case ConnectLastGoodConnection => RestQuiets(m, m, fsm);
    case OtherRequest => RestQuiets(m, m, fsm);
  }

  // ------------------------------------------------------------------ every step

  lemma UpdateQuiets(b: Settled, env: Env)
    requires Inv(b) && CanStep(b, HandleUpdate(env)) && Quiet(b)
    requires Registers(b, HandleUpdate(env)) ==> b.m.manualDisconnect
    ensures Quiet(After(b, HandleUpdate(env))) && NoConnect(Reacted(b, HandleUpdate(env)).outbox)
    ensures b.m.reconnect.flow == Inactive ==> After(b, HandleUpdate(env)).m.reconnect.flow == Inactive
    ensures Remembers(b.m, After(b, HandleUpdate(env)).m, b.fsm)
  {
    hide OnOutput, OneOutput, Tail, Latest, Awaiting, Grounded, InPhase, QuietIn, Deliver;
    var u := b.pend[0];
    if u.Emitted? {
      LoneOutput(b.m.status, b.pend);
      OutputQuiets(b.m, u.output, env, b.fsm);
      DeliverKeeps(OnUpdate(b.m, u, env), b.fsm, []);
    } else {
      SkippedUpdate(b.m.status, b.pend);
      NothingSent(OnUpdate(b.m, u, env), b.fsm, b.pend[1..]);
      QuietWithoutStatus(b.m, b.fsm, Tail(b.pend), OnUpdate(b.m, u, env).status);
    }
  }

  lemma DeliverKeeps(m: Manager, fsm: State, pend: seq<Update>)
    ensures Deliver(m, fsm, pend).m == m.(outbox := [])
  {
  }

  lemma NothingSent(m: Manager, fsm: State, pend: seq<Update>)
    requires m.outbox == []
    ensures Deliver(m, fsm, pend) == Settled(m, fsm, pend)
  {
    assert pend + RunUpdates(fsm, []) == pend;
  }

  lemma QuietWithoutStatus(m: Manager, fsm: State, tail: Option<Output>, status: State)
    ensures QuietIn(m.(status := status), fsm, tail) == QuietIn(m, fsm, tail)
  {
  }

  lemma ExternalQuiets(b: Settled, ev: External, env: Env)
    requires Inv(b) && CanStep(b, HandleExternal(ev, env)) && Quiet(b) && !AcceptsRequest(b.m, ev)
    ensures Quiet(After(b, HandleExternal(ev, env))) && NoConnect(Reacted(b, HandleExternal(ev, env)).outbox)
    ensures b.m.reconnect.flow == Inactive ==> After(b, HandleExternal(ev, env)).m.reconnect.flow == Inactive
    ensures Remembers(b.m, After(b, HandleExternal(ev, env)).m, b.fsm)
  {
    hide OnCaller, OnWs, OnNetwork, QuietIn, Deliver, AcceptsRequest;
    match ev {
      case FromCaller(msg) => CallerQuiets(b.m, msg, env, b.fsm);
      case FromWs(w) => WsQuiets(b.m, w, env, b.fsm);
      case FromNetwork(onNetwork) => NetworkQuiets(b.m, onNetwork, env, b.fsm);
    }
    DeliverKeeps(OnExternal(b.m, ev, env), b.fsm, []);
  }

  lemma StepQuiets(b: Settled, step: Step)
    requires Inv(b) && CanStep(b, step) && Quiet(b)
    requires !Requests(b, step) && (Registers(b, step) ==> b.m.manualDisconnect)
    ensures Quiet(After(b, step)) && !Dials(b, step)
    ensures b.m.reconnect.flow == Inactive ==> After(b, step).m.reconnect.flow == Inactive
    ensures Remembers(b.m, After(b, step).m, b.fsm)
  {
    hide Inv, After, Quiet, AcceptsRequest, Reacted;
    if step.HandleUpdate? {
      UpdateQuiets(b, step.env);
    } else {
      ExternalQuiets(b, step.event, step.env);
    }
  }

  // ------------------------------------------------------------------- every run

  predicate NeverDials(b: Settled, steps: seq<Step>)
    requires CanRun(b, steps)
    decreases |steps|
  {
    steps == [] || (!Dials(b, steps[0]) && NeverDials(After(b, steps[0]), steps[1..]))
  }

  /** The caller is granted no new connection during the run. */
  predicate NoNewRequest(b: Settled, steps: seq<Step>)
    requires CanRun(b, steps)
    decreases |steps|
  {
    steps == [] || (!Requests(b, steps[0]) && NoNewRequest(After(b, steps[0]), steps[1..]))
  }

  /** ... and no connection under way gets as far as registering. */
  predicate NoRegistration(b: Settled, steps: seq<Step>)
    requires CanRun(b, steps)
    decreases |steps|
  {
    steps == [] || (!Registers(b, steps[0]) && NoRegistration(After(b, steps[0]), steps[1..]))
  }

  lemma {:induction false} RunQuiets(b: Settled, steps: seq<Step>)
    requires Inv(b) && Quiet(b) && CanRun(b, steps) && NoNewRequest(b, steps)
    requires NoRegistration(b, steps) || QuietlyInactive(b)
    ensures NeverDials(b, steps)
    ensures Inv(RunFrom(b, steps)) && Quiet(RunFrom(b, steps))
    decreases |steps|
  {
    hide Inv, After, Quiet, Requests, Registers, Dials;
    if steps != [] {
      var t := After(b, steps[0]);
      if Registers(b, steps[0]) {
        RegisteringMeansEnding(b, steps[0]);
      }
      StepQuiets(b, steps[0]);
      StepSettles(b, steps[0]);
      RunQuiets(t, steps[1..]);
    }
  }

  predicate QuietlyInactive(b: Settled) {
    b.m.reconnect.flow == Inactive
  }

  lemma RegisteringMeansEnding(b: Settled, step: Step)
    requires Inv(b) && Quiet(b) && Registers(b, step) && QuietlyInactive(b)
    ensures b.m.manualDisconnect
  {
    LoneOutput(b.m.status, b.pend);
  }

  // ---------------------------------------------------------------- main results

  /** Main result: from any drained state away from Disconnected with the flow
      cancelled, nothing dials before a request is granted or a connection under
      way registers; and back at Disconnected the flow is over and the target gone. */
  lemma CancelledIsFinal(b: Settled, steps: seq<Step>)
    requires Inv(b) && b.pend == [] && b.fsm != Disconnected && b.m.reconnect.flow == Cancelled
    requires CanRun(b, steps) && NoNewRequest(b, steps) && NoRegistration(b, steps)
    ensures NeverDials(b, steps)
    ensures var e := RunFrom(b, steps);
      e.pend == [] && e.fsm == Disconnected ==> e.m.reconnect.flow == Inactive && e.m.connection == None
  {
    RunQuiets(b, steps);
  }

  /** Main result: a disconnect the caller asks for while a connection is up, or in
      any other drained state away from Disconnected with no reconnect under way, is
      final for every order of later events, a registration included. */
  lemma ManualDisconnectIsFinal(b: Settled, env: Env, steps: seq<Step>)
    requires Inv(b) && CanStep(b, HandleExternal(FromCaller(CallerDisconnect), env))
    requires b.fsm.Communicating? || (b.fsm != Disconnected && b.m.reconnect.flow == Inactive)
    requires var t := After(b, HandleExternal(FromCaller(CallerDisconnect), env));
      CanRun(t, steps) && NoNewRequest(t, steps)
    ensures var t := After(b, HandleExternal(FromCaller(CallerDisconnect), env));
      && NeverDials(t, steps)
      && var e := RunFrom(t, steps);
         e.pend == [] && e.fsm == Disconnected ==> e.m.reconnect.flow == Inactive && e.m.connection == None
  {
    hide NeverDials, NoNewRequest, RunFrom;
    var t := After(b, HandleExternal(FromCaller(CallerDisconnect), env));
    var m1 := OnCaller(b.m, CallerDisconnect, env);
    ExternalSettles(b, FromCaller(CallerDisconnect), env);
    QuietAfterInput(m1, b.fsm, StateMachine.Disconnect);
    DeliverKeeps(m1, b.fsm, []);
    RunQuiets(t, steps);
  }
}
