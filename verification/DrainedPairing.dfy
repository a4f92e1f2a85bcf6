/** What becomes of a pairing that does not succeed: its disconnect is never
    retried. */
module DrainedPairing {
  import opened Wrappers
  import opened StateMachine
  import opened ManagerModel
  import opened ManagerFacts
  import opened Async
  import opened Drained
  import opened DrainedInvariant
  import opened DrainedSteps
  import opened DrainedFinality
  import opened DrainedSpent

  /** Still pairing, or on the way down from it. */
  predicate PairingIn(m: Manager, fsm: State, tail: Option<Output>) {
    && m.pairing
    && match tail
       case None => fsm.Pairing? || fsm.Disconnecting?
       case Some(DisconnectFromTv) => true
       case Some(HandleSuccessfulDisconnect) => true
       case Some(HandleDisconnectError) => true
       case Some(InitializeConnection) => true
       case Some(_) => false
  }

  predicate Down(fsm: State, tail: Option<Output>) {
    fsm == Disconnected && tail == None
  }

  predicate StillPairing(b: Settled) {
    PairingIn(b.m, b.fsm, Tail(b.pend))
  }

  predicate IsDown(b: Settled) {
    Down(b.fsm, Tail(b.pend))
  }

  /** What one handler leaves: still pairing, or down; and a cut flow stays cut. */
  predicate StaysUnpaired(m: Manager, r: Manager, fsm: State) {
    var b := Deliver(r, fsm, []);
    && (StillPairing(b) || IsDown(b))
    && NoConnect(r.outbox)
    && (Cut(m) ==> Cut(b.m))
  }

  lemma PairingAfterInput(m0: Manager, m: Manager, fsm: State, i: Input)
    requires m.pairing && (fsm.Pairing? || fsm.Disconnecting?) && m.outbox == [i] && !i.Connect?
    requires Cut(m0) ==> Cut(m)
    ensures StaysUnpaired(m0, m, fsm)
  {
    assert PairingIn(m, Next(fsm, i), Tail(Emit(fsm, i))) || Down(Next(fsm, i), Tail(Emit(fsm, i)));
    CutWithoutOutbox(m);
    hide RunUpdates, RunState, Emit, Next, Tail, Cut;
    RunOne(fsm, i);
    assert [] + Emit(fsm, i) == Emit(fsm, i);
  }

  lemma PairingAfterNothing(m0: Manager, m: Manager, fsm: State)
    requires m.pairing && (fsm.Pairing? || fsm.Disconnecting?) && m.outbox == []
    requires Cut(m0) ==> Cut(m)
    ensures StaysUnpaired(m0, m, fsm)
  {
    hide Cut;
    NothingSent(m, fsm, []);
  }

  lemma DownAfterResets(m0: Manager, m: Manager, fsm: State)
    requires AllResets(m.outbox) && Real(fsm) && (m.outbox == [] ==> fsm == Disconnected)
    requires Cut(m0) ==> Cut(m)
    ensures StaysUnpaired(m0, m, fsm)
  {
    CutWithoutOutbox(m);
    hide RunUpdates, RunState, Tail, Cut;
    RunResets(fsm, m.outbox);
    TailOfStates(RunUpdates(fsm, m.outbox));
    assert [] + RunUpdates(fsm, m.outbox) == RunUpdates(fsm, m.outbox);
  }

  lemma PairingAfterReset(m0: Manager, m: Manager, disk: Disk, fsm: State)
    requires m.outbox == [] && m.link == Open && Real(fsm) && (Cut(m0) ==> Cut(m))
    ensures StaysUnpaired(m0, ForceReset(m, disk), fsm)
  {
    ResetStaysCut(m, disk);
    hide ForceReset, Cut, StaysUnpaired;
    DownAfterResets(m0, ForceReset(m, disk), fsm);
  }

  lemma PairingAfterSend(m0: Manager, m: Manager, w: WsMessage, a: Answer, fsm: State)
    requires m.pairing && (fsm.Pairing? || fsm.Disconnecting?) && m.outbox == [] && m.link == Open
    requires Cut(m0) ==> Cut(m)
    ensures StaysUnpaired(m0, SendToWs(m, w, a), fsm)
  {
    hide ForceReset, StaysUnpaired;
    if m.ws.sender.None? || a.sent {
      PairingAfterNothing(m0, SendToWs(m, w, a), fsm);
    } else {
      PairingAfterReset(m0, HandToWs(m, w), a.disk, fsm);
    }
  }

  // ---------------------------------------------------------- the outside events

  predicate RestingPaired(m: Manager, fsm: State) {
    Resting(m, fsm) && m.pairing && (fsm.Pairing? || fsm.Disconnecting?)
  }

  lemma PairingLosesConnection(m: Manager, env: Env, fsm: State)
    requires RestingPaired(m, fsm)
    ensures StaysUnpaired(m, LoseConnection(m, env), fsm)
  {
    hide StaysUnpaired;
    PairingAfterInput(m, LoseConnection(m, env), fsm, Error);
  }

  lemma PairingHears(m: Manager, w: WsUpdate, env: Env, fsm: State)
    requires RestingPaired(m, fsm)
    ensures StaysUnpaired(m, OnWs(m, w, env), fsm)
  {
    assert m.link == Open && m.outbox == [];
    PairingAfterNothing(m, m, fsm);
    hide StaysUnpaired, LoseConnection, OnResponse, Grounded;
    var m1 := OnWs(m, w, env);
    match w
    case WsPayload(r) =>
      ResponseSendsOne(m, r);
      if m1 != m {
        PairingAfterInput(m, m1, fsm, m1.outbox[0]);
      }
    case WsConnectError => PairingLosesConnection(m, env, fsm);
    case WsMessageReadError => PairingLosesConnection(m, env, fsm);
    case WsServerClosedConnection => PairingLosesConnection(m, env, fsm);
    case WsIdle =>
    case WsConnected => PairingAfterInput(m, m1, fsm, AttemptRegister);
    case WsDisconnected => PairingAfterInput(m, m1, fsm, DisconnectionComplete);
    case WsConnectionOk(ok) =>
      if !ok {
        PairingAfterInput(m, m1, fsm, Error);
      }
  }

  lemma PairingNetwork(m: Manager, onNetwork: bool, env: Env, fsm: State)
    requires RestingPaired(m, fsm)
    ensures StaysUnpaired(m, OnNetwork(m, onNetwork, env), fsm)
  {
    assert Real(fsm) && m.link == Open && m.outbox == [] && m.status == fsm;
    hide StaysUnpaired, Grounded, InitiateReconnect;
    var m1 := Noticed(m, onNetwork);
    if m.checker.wasOnNetwork && !onNetwork {
      PairingAfterInput(m, OnNetwork(m, onNetwork, env), fsm, Error);
    } else if !m.checker.wasOnNetwork && onNetwork && m.reconnect.flow == WaitingForTvOnNetwork {
      PairingAttempt(m, m1, env, fsm);
    } else {
      PairingAfterNothing(m, m1, fsm);
    }
  }

  /** An attempt made before the disconnect is complete is refused. */
  lemma PairingAttempt(m0: Manager, m: Manager, env: Env, fsm: State)
    requires RestingPaired(m, fsm) && (Cut(m0) ==> Cut(m))
    ensures StaysUnpaired(m0, InitiateReconnect(m, true, env), fsm)
  {
    assert Real(fsm) && m.link == Open && m.outbox == [];
    hide StaysUnpaired, Grounded, ForceReset;
    if !env.reconnectLoad && m.checker.operational {
      PairingAfterNothing(m0, m, fsm);
    } else if m.wsUrl.None? {
      PairingAfterReset(m0, SetFlow(SetFlow(m, Active), Inactive), env.resetDisk, fsm);
    } else {
      PairingAfterNothing(m0, InitiateReconnect(m, true, env), fsm);
    }
  }

  lemma PairingCaller(m: Manager, msg: ManagerMessage, env: Env, fsm: State)
    requires RestingPaired(m, fsm) && msg != ShutDownManager
    ensures StaysUnpaired(m, OnCaller(m, msg, env), fsm)
  {
    assert Real(fsm) && m.link == Open && m.outbox == [] && m.status == fsm;
    PairingAfterNothing(m, m, fsm);
    hide StaysUnpaired, Grounded, ForceReset, SendToWs;
    var r := OnCaller(m, msg, env);
    match msg
    case CancelReconnect =>
      if m.reconnect.flow == WaitingForTvOnNetwork {
        PairingAfterReset(m, SetFlow(m, Cancelled), env.answer.disk, fsm);
      } else {
        PairingAfterNothing(m, r, fsm);
      }
    case CallerDisconnect => PairingAfterInput(m, r, fsm, StateMachine.Disconnect);
    case SendTvCommand(c) => PairingAfterInput(m, r, fsm, SendCommand(c));
    case CallerTestConnection =>
      if m.initialized {
        PairingAfterSend(m, m, TestConnection, env.answer, fsm);
      }
    case ConnectTo(_) =>
    case ConnectLastGoodConnection =>
    case OtherRequest =>
  }

  // ---------------------------------------------------------------- the outputs

  lemma PairingOutput(m: Manager, o: Output, env: Env, fsm: State)
    requires Handling(m, fsm, o) && PairingIn(m, fsm, Some(o)) && o != InitializeConnection
    ensures StaysUnpaired(m, OnOutput(m, o, env), fsm)
    ensures o != DisconnectFromTv ==> OnOutput(m, o, env).reconnect.flow != Active
  {
    hide StaysUnpaired, SendToWs, HandleDisconnected;
    match o
    case DisconnectFromTv =>
      PairingAfterSend(m, OptionallyPrepareForReconnect(m, env.firstLoad, env.secondLoad), ShutDown, env.answer, fsm);
    case HandleSuccessfulDisconnect => PairingEnds(m, m.(manualDisconnect := false), env);
    case HandleDisconnectError => PairingEnds(m, m.(manualDisconnect := false), env);
  }

  lemma PairingEnds(m0: Manager, m: Manager, env: Env)
    requires m.pairing && m.outbox == [] && (Cut(m0) ==> Cut(m))
    ensures StaysUnpaired(m0, HandleDisconnected(m, env), Disconnected)
    ensures HandleDisconnected(m, env).reconnect.flow != Active
  {
    hide StaysUnpaired, InitiateReconnect;
    DownAfterResets(m0, HandleDisconnected(m, env), Disconnected);
  }

  // ------------------------------------------------------------------ every step

  predicate Handles(b: Settled, step: Step, o: Output) {
    step.HandleUpdate? && b.pend != [] && b.pend[0] == Emitted(o)
  }

  /** Handling the completion of a disconnect. */
  predicate Completes(b: Settled, step: Step) {
    Handles(b, step, HandleSuccessfulDisconnect) || Handles(b, step, HandleDisconnectError)
  }

  lemma PairingUpdate(b: Settled, env: Env)
    requires Inv(b) && CanStep(b, HandleUpdate(env)) && StillPairing(b) && !Handles(b, HandleUpdate(env), InitializeConnection)
    ensures var t := After(b, HandleUpdate(env));
      && (StillPairing(t) || IsDown(t)) && NoConnect(Reacted(b, HandleUpdate(env)).outbox)
      && (Cut(b.m) ==> Cut(t.m))
      && (Completes(b, HandleUpdate(env)) ==> IsDown(t) && t.m.reconnect.flow != Active)
  {
    hide OnOutput, OneOutput, Tail, Latest, Awaiting, Grounded, InPhase, Deliver, Cut;
    var u := b.pend[0];
    if u.Emitted? {
      LoneOutput(b.m.status, b.pend);
      PairingOutput(b.m, u.output, env, b.fsm);
      DeliverKeeps(OnUpdate(b.m, u, env), b.fsm, []);
      if Completes(b, HandleUpdate(env)) {
        CompletionIsDown(b, env);
      }
    } else {
      SkippedUpdate(b.m.status, b.pend);
      NothingSent(OnUpdate(b.m, u, env), b.fsm, b.pend[1..]);
      CutWithoutStatus(b.m, OnUpdate(b.m, u, env).status);
    }
  }

  lemma CutWithoutStatus(m: Manager, status: State)
    ensures Cut(m.(status := status)) == Cut(m)
  {
  }

  lemma CompletionIsDown(b: Settled, env: Env)
    requires Inv(b) && CanStep(b, HandleUpdate(env)) && StillPairing(b) && Completes(b, HandleUpdate(env))
    ensures IsDown(After(b, HandleUpdate(env)))
  {
    LoneOutput(b.m.status, b.pend);
    hide InitiateReconnect;
    NothingSent(OnUpdate(b.m, b.pend[0], env), b.fsm, []);
  }

  lemma PairingExternal(b: Settled, ev: External, env: Env)
    requires Inv(b) && CanStep(b, HandleExternal(ev, env)) && PairingIn(b.m, b.fsm, None)
    ensures var t := After(b, HandleExternal(ev, env));
      && (StillPairing(t) || IsDown(t)) && NoConnect(Reacted(b, HandleExternal(ev, env)).outbox)
      && (Cut(b.m) ==> Cut(t.m))
  {
    hide OnCaller, OnWs, OnNetwork, Deliver, Cut;
    match ev {
      case FromCaller(msg) => PairingCaller(b.m, msg, env, b.fsm);
      case FromWs(w) => PairingHears(b.m, w, env, b.fsm);
      case FromNetwork(onNetwork) => PairingNetwork(b.m, onNetwork, env, b.fsm);
    }
  }

  lemma PairingStep(b: Settled, step: Step)
    requires Inv(b) && CanStep(b, step) && StillPairing(b) && !Handles(b, step, InitializeConnection)
    ensures var t := After(b, step);
      && (StillPairing(t) || IsDown(t)) && !Dials(b, step)
      && (Cut(b.m) ==> Cut(t.m))
      && (Completes(b, step) ==> IsDown(t) && t.m.reconnect.flow != Active)
  {
    assert step.HandleExternal? ==> Tail(b.pend) == None;
    hide Inv, After, Reacted, Tail, Cut, PairingIn;
    if step.HandleUpdate? {
      PairingUpdate(b, step.env);
    } else {
      PairingExternal(b, step.event, step.env);
    }
  }

  // ---------------------------------------------------------------- main result

  /** The pairing does not succeed, and the machine is not back at Disconnected before
      the end of the run. */
  predicate UntilDown(b: Settled, steps: seq<Step>)
    requires CanRun(b, steps)
    decreases |steps|
  {
    steps == [] ||
    (!IsDown(b) && !Handles(b, steps[0], InitializeConnection) && UntilDown(After(b, steps[0]), steps[1..]))
  }

  /** The run ends with the handling of a completed disconnect. */
  predicate EndsCompleted(b: Settled, steps: seq<Step>)
    requires CanRun(b, steps)
    decreases |steps|
  {
    steps != [] &&
    (if |steps| == 1 then Completes(b, steps[0]) else EndsCompleted(After(b, steps[0]), steps[1..]))
  }

  lemma {:induction false} PairingRun(b: Settled, steps: seq<Step>)
    requires Inv(b) && StillPairing(b) && CanRun(b, steps) && UntilDown(b, steps)
    ensures NeverDials(b, steps)
    ensures StillPairing(RunFrom(b, steps)) || IsDown(RunFrom(b, steps))
    ensures EndsCompleted(b, steps) ==>
      IsDown(RunFrom(b, steps)) && RunFrom(b, steps).m.reconnect.flow != Active
    decreases |steps|
  {
    hide Inv, After, StillPairing, IsDown, Handles, Dials, Cut, Completes;
    if steps != [] {
      PairingStep(b, steps[0]);
      StepSettles(b, steps[0]);
      var t := After(b, steps[0]);
      if |steps| == 1 {
        assert steps[1..] == [];
      } else if StillPairing(t) {
        PairingRun(t, steps[1..]);
      }
    }
  }

  /** Main result: from every drained state in Pairing, whatever the settings and the
      order of events, no Connect is sent up to and including the step that brings the
      machine back to Disconnected, unless the pairing succeeds; and a disconnect
      handled as completed leaves the flow not Active. */
  lemma PairingIsNotRetried(b: Settled, steps: seq<Step>)
    requires Inv(b) && b.pend == [] && b.fsm.Pairing?
    requires CanRun(b, steps) && UntilDown(b, steps)
    ensures NeverDials(b, steps)
    ensures EndsCompleted(b, steps) ==>
      RunFrom(b, steps).fsm == Disconnected && RunFrom(b, steps).m.reconnect.flow != Active
  {
    PairingRun(b, steps);
  }
}
