/** A reconnect flow that is under way when a disconnect is asked for, but leads
    nowhere: it never dials again. */
module DrainedSpent {
  import opened Wrappers
  import opened StateMachine
  import opened ManagerModel
  import opened ManagerFacts
  import opened Async
  import opened Drained
  import opened DrainedInvariant
  import opened DrainedSteps
  import opened DrainedFinality

  /** Nothing takes the target up again from Disconnected. */
  predicate Cut(m: Manager) {
    !AutoReconnect(m) || !Pings(m)
  }

  /** A failed connect is not retried. */
  predicate NoRetryLeft(m: Manager) {
    !ShouldRetryConnectFailure(m) || Barred(m)
  }

  /** A completed disconnect is not retried. */
  predicate NoRetryDue(m: Manager) {
    m.reconnect.flow == Active ==> m.pairing || Barred(m)
  }

  /** The flow makes no attempt on its way to Disconnected, and is cut there. */
  predicate SpentIn(m: Manager, fsm: State, tail: Option<Output>) {
    && Cut(m)
    && match tail
       case None =>
         (match fsm
          case Disconnected => true
          case Connecting(_) => m.reconnect.flow == Active && NoRetryLeft(m)
          case Disconnecting(_) => KeepsTarget(m.reconnect.flow) && NoRetryDue(m)
          case _ => false)
       case Some(SendRegisterPayload) => true
       case Some(HandleConnectError) => NoRetryLeft(m)
       case Some(HandleSuccessfulDisconnect) => NoRetryDue(m)
       case Some(HandleDisconnectError) => NoRetryDue(m)
       case Some(_) => false
  }

  predicate Hushed(b: Settled) {
    Quiet(b) || SpentIn(b.m, b.fsm, Tail(b.pend))
  }

  /** What one handler of a spent system leaves. */
  predicate StaysHushed(m: Manager, r: Manager, fsm: State) {
    Hushed(Deliver(r, fsm, [])) && NoConnect(r.outbox) && Remembers(m, r, fsm)
  }

  lemma SpentAfterInput(m0: Manager, m: Manager, fsm: State, i: Input)
    requires SpentIn(m, fsm, None) && m.outbox == [i] && !i.Connect? && Real(fsm) && Remembers(m0, m, fsm)
    ensures StaysHushed(m0, m, fsm)
  {
    assert SpentIn(m, Next(fsm, i), Tail(Emit(fsm, i)));
    hide Quiet, RunUpdates, RunState, Emit, Next, Tail, SpentIn;
    RunOne(fsm, i);
    assert [] + Emit(fsm, i) == Emit(fsm, i);
    SpentWithoutOutbox(m, Next(fsm, i), Tail(Emit(fsm, i)));
  }

  lemma SpentWithoutOutbox(m: Manager, fsm: State, tail: Option<Output>)
    ensures SpentIn(m.(outbox := []), fsm, tail) == SpentIn(m, fsm, tail)
  {
  }

  lemma SpentAfterNothing(m0: Manager, m: Manager, fsm: State)
    requires SpentIn(m, fsm, None) && m.outbox == [] && Remembers(m0, m, fsm)
    ensures StaysHushed(m0, m, fsm)
  {
    hide Quiet;
    NothingSent(m, fsm, []);
  }

  lemma QuietIsHushed(m0: Manager, r: Manager, fsm: State)
    requires StaysQuiet(r, r, fsm) && Remembers(m0, r, fsm)
    ensures StaysHushed(m0, r, fsm)
  {
  }

  lemma ResetStaysCut(m: Manager, disk: Disk)
    requires m.link == Open
    ensures var r := ForceReset(m, disk);
      && r.outbox == m.outbox + [Reset]
      && (Cut(m) ==> Cut(r))
      && r.manualDisconnect == m.manualDisconnect
      && (m.reconnect.flow != Active ==> r.reconnect.flow != Active)
      && (!ShouldRetryConnectFailure(m) ==> !ShouldRetryConnectFailure(r))
      && r.checker == m.checker && r.reconnect.flow != Cancelled
  {
  }

  lemma SpentAfterReset(m0: Manager, m: Manager, disk: Disk, fsm: State)
    requires Cut(m) && m.outbox == [] && m.link == Open
    requires Real(fsm) && Remembers(m0, m, fsm)
    ensures StaysHushed(m0, ForceReset(m, disk), fsm)
  {
    var r := ForceReset(m, disk);
    ResetStaysCut(m, disk);
    hide ForceReset, Quiet, Cut;
    assert r.outbox == [Reset];
    RunOne(fsm, Reset);
    assert [] + Emit(fsm, Reset) == [NewState(Disconnected)];
    CutWithoutOutbox(r);
  }

  lemma CutWithoutOutbox(m: Manager)
    ensures Cut(m.(outbox := [])) == Cut(m)
  {
  }

  // ---------------------------------------------------------- the outside events

  predicate RestingSpent(m: Manager, fsm: State) {
    && Resting(m, fsm) && SpentIn(m, fsm, None)
    && (fsm != Disconnected ==> m.manualDisconnect)
  }

  lemma SpentLoseConnection(m: Manager, env: Env, fsm: State)
    requires RestingSpent(m, fsm)
    ensures StaysHushed(m, LoseConnection(m, env), fsm)
  {
    hide StaysHushed;
    SpentAfterInput(m, LoseConnection(m, env), fsm, Error);
  }

  lemma SpentResponse(m: Manager, r: TvResponse, fsm: State)
    requires RestingSpent(m, fsm)
    ensures StaysHushed(m, OnResponse(m, r), fsm)
  {
    ResponseSendsOne(m, r);
    var m1 := OnResponse(m, r);
    hide StaysHushed, OnResponse, Grounded;
    if m1 == m {
      SpentAfterNothing(m, m, fsm);
    } else {
      assert Real(fsm);
      SpentAfterInput(m, m1, fsm, m1.outbox[0]);
    }
  }

  lemma SpentWs(m: Manager, w: WsUpdate, env: Env, fsm: State)
    requires RestingSpent(m, fsm)
    ensures StaysHushed(m, OnWs(m, w, env), fsm)
  {
    assert Real(fsm) && m.link == Open && m.outbox == [];
    SpentAfterNothing(m, m, fsm);
    hide StaysHushed, LoseConnection, OnResponse, Grounded;
    var m1 := OnWs(m, w, env);
    match w
    case WsPayload(r) => SpentResponse(m, r, fsm);
    case WsConnectError => SpentLoseConnection(m, env, fsm);
    case WsMessageReadError => SpentLoseConnection(m, env, fsm);
    case WsServerClosedConnection => SpentLoseConnection(m, env, fsm);
    case WsIdle =>
    case WsConnected => SpentAfterInput(m, m1, fsm, AttemptRegister);
    case WsDisconnected => SpentAfterInput(m, m1, fsm, DisconnectionComplete);
    case WsConnectionOk(ok) =>
      if !ok {
        SpentAfterInput(m, m1, fsm, Error);
      }
  }

  lemma SpentNetwork(m: Manager, onNetwork: bool, env: Env, fsm: State)
    requires RestingSpent(m, fsm) && Pings(m)
    ensures StaysHushed(m, OnNetwork(m, onNetwork, env), fsm)
  {
    assert Real(fsm) && m.link == Open && m.outbox == [];
    assert m.reconnect.flow != WaitingForTvOnNetwork;
    hide StaysHushed, Grounded, InitiateReconnect;
    var r := OnNetwork(m, onNetwork, env);
    if m.checker.wasOnNetwork && !onNetwork && fsm != Disconnected {
      SpentAfterInput(m, r, fsm, Error);
    } else {
      SpentAfterNothing(m, r, fsm);
    }
  }

  lemma SpentCaller(m: Manager, msg: ManagerMessage, env: Env, fsm: State)
    requires RestingSpent(m, fsm) && msg != ShutDownManager && !AcceptsRequest(m, FromCaller(msg))
    ensures StaysHushed(m, OnCaller(m, msg, env), fsm)
  {
    assert Real(fsm) && m.link == Open && m.outbox == [];
    SpentAfterNothing(m, m, fsm);
    hide StaysHushed, Grounded, ForceReset, SendToWs;
    var r := OnCaller(m, msg, env);
    match msg
    case CancelReconnect => SpentCancel(m, env, fsm);
    case CallerDisconnect => SpentAfterInput(m, r, fsm, StateMachine.Disconnect);
    case SendTvCommand(c) => SpentAfterInput(m, r, fsm, SendCommand(c));
    case CallerTestConnection =>
      if m.initialized {
        SpentSend(m, TestConnection, env.answer, fsm);
      }
    case ConnectTo(_) =>
    case ConnectLastGoodConnection =>
    case OtherRequest =>
  }

  lemma SpentCancel(m: Manager, env: Env, fsm: State)
    requires RestingSpent(m, fsm)
    ensures StaysHushed(m, OnCaller(m, CancelReconnect, env), fsm)
  {
    assert Real(fsm) && m.link == Open && m.outbox == [];
    hide StaysHushed, Grounded, ForceReset;
    var r := SetFlow(m, Cancelled);
    if m.reconnect.flow == WaitingForTvOnNetwork {
      SpentAfterReset(m, r, env.answer.disk, fsm);
    } else if m.reconnect.flow == Active && fsm != Disconnected {
      RestQuiets(r, r, fsm);
      QuietIsHushed(m, r, fsm);
    } else {
      SpentAfterNothing(m, OnCaller(m, CancelReconnect, env), fsm);
    }
  }

  lemma SpentSend(m: Manager, w: WsMessage, a: Answer, fsm: State)
    requires SpentIn(m, fsm, None) && m.outbox == [] && m.link == Open && Real(fsm)
    ensures StaysHushed(m, SendToWs(m, w, a), fsm)
  {
    hide StaysHushed, ForceReset;
    if m.ws.sender.None? || a.sent {
      SpentAfterNothing(m, SendToWs(m, w, a), fsm);
    } else {
      SpentAfterReset(m, HandToWs(m, w), a.disk, fsm);
    }
  }

  // ---------------------------------------------------------------- the outputs

  lemma SpentOutput(m: Manager, o: Output, env: Env, fsm: State)
    requires Handling(m, fsm, o) && SpentIn(m, fsm, Some(o)) && Plausible(m, env)
    requires fsm != Disconnected ==> m.manualDisconnect
    ensures StaysHushed(m, OnOutput(m, o, env), fsm)
  {
    hide StaysHushed, SendToWs, HandleDisconnected, InitiateReconnect, ForceReset;
    match o
    case SendRegisterPayload =>
      var m1 := SetFlow(m, Inactive).(sessions := m.sessions + 1);
      SendQuiets(m, m1, Register, env.answer, fsm);
      QuietIsHushed(m, OnOutput(m, o, env), fsm);
    case HandleConnectError => SpentConnectError(m, env);
    case HandleSuccessfulDisconnect => SpentDisconnected(m, m.(manualDisconnect := false), env);
    case HandleDisconnectError => SpentDisconnected(m, m.(manualDisconnect := false), env);
  }

  lemma SpentConnectError(m: Manager, env: Env)
    requires Cut(m) && NoRetryLeft(m) && m.outbox == [] && m.link == Open && Plausible(m, env)
    ensures StaysHushed(m, OnOutput(m, HandleConnectError, env), Disconnected)
  {
    hide StaysHushed, ForceReset, InitiateReconnect;
    ResetStaysCut(m, env.answer.disk);
    AttemptIsPrevented(ForceReset(m, env.answer.disk), env);
    SpentAfterReset(m, m, env.answer.disk, Disconnected);
  }

  lemma AttemptIsPrevented(m: Manager, env: Env)
    ensures Barred(m) && Plausible(m, env) ==> InitiateReconnect(m, false, env) == m
  {
  }

  lemma SpentDisconnected(m0: Manager, m: Manager, env: Env)
    requires Cut(m) && NoRetryDue(m) && m.outbox == [] && m.link == Open && Plausible(m, env)
    ensures StaysHushed(m0, HandleDisconnected(m, env), Disconnected)
  {
    var m1 := InitializeManagerState(AwaitHandler(m), env.answer.disk);
    AttemptIsPrevented(m1, env);
    assert Barred(m) == Barred(m1);
    hide StaysHushed, InitiateReconnect;
    SpentAfterNothing(m0, HandleDisconnected(m, env), Disconnected);
  }

  // ------------------------------------------------------------------ every step

  /** A disconnect has been asked for, or there is nothing to disconnect. */
  predicate ManualOrDown(b: Settled) {
    b.fsm == Disconnected || b.m.manualDisconnect
  }

  lemma {:induction false} DownStaysDown(ins: seq<Input>)
    requires NoConnect(ins)
    ensures RunState(Disconnected, ins) == Disconnected
    decreases |ins|
  {
    if ins != [] {
      assert ins[0] in ins;
      assert forall i | i in ins[1..] :: i in ins;
      DownStaysDown(ins[1..]);
    }
  }

  lemma StaysDown(b: Settled, step: Step)
    requires CanStep(b, step) && b.fsm == Disconnected && !Dials(b, step)
    ensures After(b, step).fsm == Disconnected
  {
    hide Reacted;
    DownStaysDown(Reacted(b, step).outbox);
  }

  lemma SpentWithoutStatus(m: Manager, fsm: State, tail: Option<Output>, status: State)
    ensures SpentIn(m.(status := status), fsm, tail) == SpentIn(m, fsm, tail)
  {
  }

  lemma SpentUpdate(b: Settled, env: Env)
    requires Inv(b) && CanStep(b, HandleUpdate(env)) && SpentIn(b.m, b.fsm, Tail(b.pend)) && ManualOrDown(b)
    ensures Hushed(After(b, HandleUpdate(env))) && NoConnect(Reacted(b, HandleUpdate(env)).outbox)
    ensures Remembers(b.m, After(b, HandleUpdate(env)).m, b.fsm)
  {
    hide OnOutput, OneOutput, Tail, Latest, Awaiting, Grounded, InPhase, SpentIn, Quiet, Deliver;
    var u := b.pend[0];
    if u.Emitted? {
      LoneOutput(b.m.status, b.pend);
      SpentOutput(b.m, u.output, env, b.fsm);
      DeliverKeeps(OnUpdate(b.m, u, env), b.fsm, []);
    } else {
      SkippedUpdate(b.m.status, b.pend);
      NothingSent(OnUpdate(b.m, u, env), b.fsm, b.pend[1..]);
      SpentWithoutStatus(b.m, b.fsm, Tail(b.pend), OnUpdate(b.m, u, env).status);
    }
  }

  lemma SpentExternal(b: Settled, ev: External, env: Env)
    requires Inv(b) && CanStep(b, HandleExternal(ev, env)) && SpentIn(b.m, b.fsm, None) && ManualOrDown(b)
    requires !AcceptsRequest(b.m, ev)
    ensures Hushed(After(b, HandleExternal(ev, env))) && NoConnect(Reacted(b, HandleExternal(ev, env)).outbox)
    ensures Remembers(b.m, After(b, HandleExternal(ev, env)).m, b.fsm)
  {
    hide OnCaller, OnWs, OnNetwork, SpentIn, Quiet, Deliver, AcceptsRequest;
    match ev {
      case FromCaller(msg) => SpentCaller(b.m, msg, env, b.fsm);
      case FromWs(w) => SpentWs(b.m, w, env, b.fsm);
      case FromNetwork(onNetwork) => SpentNetwork(b.m, onNetwork, env, b.fsm);
    }
    DeliverKeeps(OnExternal(b.m, ev, env), b.fsm, []);
  }

  /** Main result: once a disconnect has been asked for, or at Disconnected, a system
      that is hushed stays so and dials nothing, whatever comes next but a request. */
  lemma HushedStep(b: Settled, step: Step)
    requires Inv(b) && CanStep(b, step) && Hushed(b) && ManualOrDown(b) && !Requests(b, step)
    ensures Hushed(After(b, step)) && ManualOrDown(After(b, step)) && !Dials(b, step)
  {
    if Registers(b, step) {
      LoneOutput(b.m.status, b.pend);
    }
    assert Registers(b, step) ==> b.m.manualDisconnect;
    assert step.HandleExternal? ==> Tail(b.pend) == None;
    hide Inv, After, Quiet, SpentIn, AcceptsRequest, Reacted, Tail;
    if Quiet(b) {
      StepQuiets(b, step);
    } else if step.HandleUpdate? {
      SpentUpdate(b, step.env);
    } else {
      SpentExternal(b, step.event, step.env);
    }
    if b.fsm == Disconnected {
      StaysDown(b, step);
    }
  }
}
