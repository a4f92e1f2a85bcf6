/** When a connection that is up can be lost for good. */
module WiredLoss {
  import opened Wrappers
  import opened StateMachine
  import opened ManagerModel
  import opened ManagerFacts
  import opened Async
  import opened Drained
  import opened DrainedInvariant
  import opened DrainedSteps
  import opened DrainedFinality
  import opened DrainedSpent
  import opened DrainedPairing
  import opened DrainedLoss
  import opened HandlerLine
  import opened Wired
  import opened WiredSteps
  import opened WiredFinality
  import C = CheckerProperties
  import P = PlainProperties
  import DS = DrainedSchedule

  // ------------------------------------------------- what the messages lead to

  /** Where a connection that is up stands with the pairing: no answer to the
      registration yet, but perhaps a pairing of an earlier connection; the prompt
      shown; or past it. */
  datatype Footing = Fresh(pairing: bool) | Prompted | Past

  function FootingOf(fsm: State, pairing: bool): Footing {
    if fsm.Connected? then Fresh(pairing) else if fsm.Pairing? then Prompted else Past
  }

  /** While the pairing is under way a lost connection is not retried. */
  predicate Held(f: Footing) {
    f.Prompted? || f == Fresh(true)
  }

  /** The messages on which the manager gives the connection up. */
  predicate Troubles(u: WsUpdate) {
    || IsLoss(u) || u == WsConnectionOk(false)
    || u == WsPayload(PairUnexpected) || u == WsPayload(TvError(true))
  }

  /** What any other message makes of the footing. */
  function Hearing(f: Footing, u: WsUpdate): Footing {
    match (f, u)
    case (Fresh(_), WsPayload(PairPrompt)) => Prompted
    case (Fresh(_), WsPayload(Registered)) => Past
    case (Prompted, WsPayload(Registered)) => Past
    case _ => f
  }

  /** The messages not read yet lead to the connection being given up while it is not
      held by a pairing; or they do not, and the handler may still talk. */
  predicate Recovers(f: Footing, inbox: seq<WsUpdate>, stage: Stage)
    decreases |inbox|
  {
    if inbox == [] then stage.Talking?
    else if Troubles(inbox[0]) then !Held(f)
    else Recovers(Hearing(f, inbox[0]), inbox[1..], stage)
  }

  predicate Lasts(w: Wired) {
    w.line.open && Recovers(FootingOf(w.b.fsm, w.b.m.pairing), w.line.inbox, w.line.stage)
  }

  lemma {:induction false} SayingKeepsLost(f: Footing, inbox: seq<WsUpdate>, stage: Stage, u: WsUpdate)
    requires !Recovers(f, inbox, stage) && Says(stage, u).Some? && !stage.Starting? && !stage.Dialling?
    ensures !Recovers(f, inbox + [u], Says(stage, u).value)
    decreases |inbox|
  {
    if inbox == [] {
      assert [] + [u] == [u] && [u][1..] == [];
    } else {
      Front(inbox, [u]);
      if !Troubles(inbox[0]) {
        SayingKeepsLost(Hearing(f, inbox[0]), inbox[1..], stage, u);
      }
    }
  }

  // -------------------------------------------------------- a connection that is up

  predicate Standing(b: Settled) {
    && Up(b.fsm) && b.m.reconnect.flow == Inactive
    && match Tail(b.pend)
       case None => true
       case Some(PairWithTv) => true
       case Some(InitializeConnection) => true
       case Some(PassCommand(_)) => true
       case Some(_) => false
  }

  predicate StandsOn(t: Settled, f: Footing) {
    Standing(t) && FootingOf(t.fsm, t.m.pairing) == f
  }

  predicate GivenUp(t: Settled) {
    t.fsm.Disconnecting? && Tail(t.pend) == Some(DisconnectFromTv)
  }

  /** A pairing on its way down. */
  predicate PairedDown(b: Settled) {
    StillPairing(b) && (b.fsm.Disconnecting? || b.fsm == Disconnected)
  }

  /** With no checker, nothing brings the connection back once it is lost. */
  predicate Unsaved(w: Wired) {
    && !w.b.m.checker.operational
    && (|| (Standing(w.b) && !Lasts(w))
        || (GivenUp(w.b) && !w.line.open)
        || PairedDown(w.b))
  }

  predicate RestingUp(m: Manager, fsm: State) {
    Resting(m, fsm) && Up(fsm)
  }

  // ----------------------------------------------------------------- what is heard

  /** The input a message of the TV sends, for what matters here. */
  lemma ResponseSends(m: Manager, r: TvResponse)
    requires m.link == Open && m.outbox == []
    ensures var o := OnResponse(m, r).outbox;
      && (Troubles(WsPayload(r)) ==> o == [Error])
      && (r.PairPrompt? ==> o == [Pair])
      && (r.Registered? ==> o == [Initialize])
      && (!Troubles(WsPayload(r)) && !r.PairPrompt? && !r.Registered? ==> o == [] || o == [StartCommunication])
    ensures OnResponse(m, r).pairing == m.pairing && OnResponse(m, r).reconnect == m.reconnect
    ensures OnResponse(m, r).checker == m.checker
  {
    ResponseSendsOne(m, r);
  }

  lemma TroubleSends(m: Manager, u: WsUpdate, env: Env)
    requires m.link == Open && m.outbox == [] && Troubles(u)
    ensures var r := OnWs(m, u, env);
      r.outbox == [Error] && r.pairing == m.pairing && r.checker == m.checker
  {
    DS.PreparedFrame(m, env);
    hide OptionallyPrepareForReconnect, OnResponse;
    if u.WsPayload? {
      ResponseSends(m, u.response);
    }
  }

  lemma ErrorGivesUp(r: Manager, fsm: State)
    requires Up(fsm) && r.outbox == [Error]
    ensures GivenUp(Deliver(r, fsm, [])) && Deliver(r, fsm, []).m == r.(outbox := [])
  {
    RunOne(fsm, Error);
    var all := [NewState(Disconnecting(fsm.url)), Emitted(DisconnectFromTv)];
    assert [] + Emit(fsm, Error) == all;
    TailIsLast(all[0], DisconnectFromTv);
    hide Tail;
  }

  lemma TroubleIsHeard(m: Manager, u: WsUpdate, env: Env, fsm: State)
    requires RestingUp(m, fsm) && Troubles(u)
    ensures var r := OnWs(m, u, env);
      var t := Deliver(r, fsm, []);
      && r.outbox == [Error] && GivenUp(t) && t.m.pairing == m.pairing && t.m.checker == m.checker
  {
    TroubleSends(m, u, env);
    hide OnWs, Deliver, GivenUp;
    ErrorGivesUp(OnWs(m, u, env), fsm);
  }

  lemma TailIsLast(u: Update, o: Output)
    ensures Tail([u, Emitted(o)]) == Some(o)
  {
  }

  /** An input that leaves the connection up. */
  predicate Upward(i: Input) {
    i.Pair? || i.Initialize? || i.StartCommunication? || i.SendCommand? || i.AttemptRegister? || i.DisconnectionComplete?
  }

  lemma UpwardStands(r: Manager, fsm: State, i: Input)
    requires Up(fsm) && Upward(i) && r.outbox == [i] && r.reconnect.flow == Inactive
    ensures var t := Deliver(r, fsm, []);
      StandsOn(t, FootingOf(Next(fsm, i), r.pairing)) && t.m == r.(outbox := [])
  {
    assert Standing(Settled(r, Next(fsm, i), Emit(fsm, i)));
    hide Tail, Next, Emit;
    RunOne(fsm, i);
    assert [] + Emit(fsm, i) == Emit(fsm, i);
  }

  lemma NothingStands(r: Manager, fsm: State)
    requires Up(fsm) && r.outbox == [] && r.reconnect.flow == Inactive
    ensures var t := Deliver(r, fsm, []);
      StandsOn(t, FootingOf(fsm, r.pairing)) && t.m == r
  {
    NothingSent(r, fsm, []);
  }

  lemma ElseSends(m: Manager, u: WsUpdate, env: Env)
    requires m.link == Open && m.outbox == [] && !Troubles(u) && !u.WsConnectError?
    ensures var r := OnWs(m, u, env);
      && r.pairing == m.pairing && r.checker == m.checker && r.reconnect == m.reconnect
      && (r.outbox == [] || (|r.outbox| == 1 && Upward(r.outbox[0])))
      && (r.outbox == [Pair] <==> u == WsPayload(PairPrompt))
      && (r.outbox == [Initialize] <==> u == WsPayload(Registered))
  {
    hide OptionallyPrepareForReconnect, OnResponse;
    if u.WsPayload? {
      ResponseSends(m, u.response);
    }
  }

  lemma FootingMoves(fsm: State, pairing: bool, u: WsUpdate, sent: seq<Input>)
    requires Up(fsm) && (sent == [] || (|sent| == 1 && Upward(sent[0])))
    requires sent == [Pair] <==> u == WsPayload(PairPrompt)
    requires sent == [Initialize] <==> u == WsPayload(Registered)
    ensures FootingOf(if sent == [] then fsm else Next(fsm, sent[0]), pairing) == Hearing(FootingOf(fsm, pairing), u)
  {
    assert sent != [] ==> sent == [sent[0]];
  }

  lemma ElseIsHeard(m: Manager, u: WsUpdate, env: Env, fsm: State)
    requires RestingUp(m, fsm) && !Troubles(u) && !u.WsConnectError?
    ensures var r := OnWs(m, u, env);
      var t := Deliver(r, fsm, []);
      && NoConnect(r.outbox) && StandsOn(t, Hearing(FootingOf(fsm, m.pairing), u)) && t.m.checker == m.checker
  {
    var r := OnWs(m, u, env);
    assert m.reconnect.flow == Inactive && m.link == Open && m.outbox == [];
    ElseSends(m, u, env);
    FootingMoves(fsm, m.pairing, u, r.outbox);
    hide OnWs, Hearing, FootingOf, Next, Resting, StandsOn, Deliver, Troubles;
    if r.outbox == [] {
      NothingStands(r, fsm);
    } else {
      assert r.outbox == [r.outbox[0]];
      UpwardStands(r, fsm, r.outbox[0]);
    }
  }

  // ------------------------------------------------------------- the other events

  lemma ResetGoesDown(m: Manager, disk: Disk, fsm: State)
    requires m.outbox == [] && m.link == Open && Real(fsm)
    ensures var r := ForceReset(m, disk);
      NoConnect(r.outbox) && IsDown(Deliver(r, fsm, [])) && Deliver(r, fsm, []).m.checker == m.checker
  {
    ResetFacts(m, disk);
    hide ForceReset;
    GoesDown(ForceReset(m, disk), fsm);
  }

  lemma GoesDown(r: Manager, fsm: State)
    requires AllResets(r.outbox) && r.outbox != [] && Real(fsm)
    ensures NoConnect(r.outbox) && IsDown(Deliver(r, fsm, []))
  {
    RunResets(fsm, r.outbox);
    TailOfStates(RunUpdates(fsm, r.outbox));
    assert [] + RunUpdates(fsm, r.outbox) == RunUpdates(fsm, r.outbox);
    hide Tail, RunUpdates, RunState;
  }

  /** What a request or an output other than the last leaves of a connection that is up. */
  predicate StandsOrFalls(m: Manager, r: Manager, fsm: State, f: Footing) {
    var t := Deliver(r, fsm, []);
    && NoConnect(r.outbox) && t.m.checker == m.checker
    && (StandsOn(t, f) || IsDown(t) || (Quiet(t) && t.m.manualDisconnect))
  }

  lemma SendStandsOrFalls(m0: Manager, m: Manager, w: WsMessage, a: Answer, fsm: State)
    requires m.outbox == [] && m.link == Open && Real(fsm) && Up(fsm) && m.reconnect.flow == Inactive
    requires m.checker == m0.checker
    ensures StandsOrFalls(m0, SendToWs(m, w, a), fsm, FootingOf(fsm, m.pairing))
  {
    hide ForceReset, Quiet, Deliver, StandsOn, IsDown;
    if m.ws.sender.None? || a.sent {
      NothingStands(SendToWs(m, w, a), fsm);
    } else {
      ResetGoesDown(HandToWs(m, w), a.disk, fsm);
    }
  }

  lemma DisconnectIsQuiet(m: Manager, fsm: State)
    requires Up(fsm) && m.reconnect.flow == Inactive
    ensures var r := m.(manualDisconnect := true, outbox := [StateMachine.Disconnect]);
      StandsOrFalls(m, r, fsm, FootingOf(fsm, m.pairing))
  {
    var r := m.(manualDisconnect := true, outbox := [StateMachine.Disconnect]);
    QuietAfterInput(r, fsm, StateMachine.Disconnect);
    DeliverKeeps(r, fsm, []);
    hide Quiet, Deliver, StandsOn, IsDown;
  }

  lemma RestIsUp(m: Manager, fsm: State)
    requires RestingUp(m, fsm)
    ensures m.reconnect.flow == Inactive && m.link == Open && m.outbox == [] && m.status == fsm && Real(fsm) && Up(fsm)
  {
  }

  lemma AskedWhileUp(m: Manager, msg: ManagerMessage, env: Env, fsm: State)
    requires RestingUp(m, fsm) && msg != ShutDownManager
    ensures StandsOrFalls(m, OnCaller(m, msg, env), fsm, FootingOf(fsm, m.pairing))
  {
    RestIsUp(m, fsm);
    hide RestingUp, StandsOn, Deliver, IsDown, SendToWs, Quiet, Up;
    match msg
    case CallerDisconnect =>
      DisconnectIsQuiet(m, fsm);
      assert OnCaller(m, msg, env) == m.(manualDisconnect := true, outbox := [StateMachine.Disconnect]);
    case SendTvCommand(c) =>
      assert FootingOf(Next(fsm, SendCommand(c)), m.pairing) == FootingOf(fsm, m.pairing);
      UpwardStands(OnCaller(m, msg, env), fsm, SendCommand(c));
    case CallerTestConnection =>
      if m.initialized {
        SendStandsOrFalls(m, m, TestConnection, env.answer, fsm);
      } else {
        NothingStands(m, fsm);
      }
    case _ => NothingStands(m, fsm);
  }

  lemma QueriesStandOrFall(m: Manager, answers: seq<Answer>, fsm: State)
    requires m.outbox == [] && m.link == Open && Real(fsm) && Up(fsm) && m.reconnect.flow == Inactive
    ensures StandsOrFalls(m, InitializeTvConnection(m, answers), fsm, FootingOf(fsm, m.pairing))
  {
    var r := InitializeTvConnection(m, answers);
    QuerySequence(m, answers);
    QueriesKeepChecker(m, answers);
    hide SendQueries, StandsOn, Quiet;
    DeliverKeeps(r, fsm, []);
    if r.outbox == [] {
      NothingStands(r, fsm);
      assert SendQueries(m, answers).outbox == [];
    } else {
      GoesDown(r, fsm);
    }
  }

  lemma {:induction false} QueriesKeepChecker(m: Manager, answers: seq<Answer>)
    requires m.link == Open
    ensures var r := SendQueries(m, answers);
      r.checker == m.checker && r.link == Open && (r.outbox == m.outbox ==> r.pairing == m.pairing)
      && |r.outbox| >= |m.outbox|
    decreases |answers|
  {
    hide ForceReset;
    if answers != [] {
      var n := |answers| - 1;
      QueriesKeepChecker(m, answers[..n]);
      var before := SendQueries(m, answers[..n]);
      ResetFacts(HandToWs(before, Query(n)), answers[n].disk);
      C.ResetKeepsChecker(HandToWs(before, Query(n)), answers[n].disk);
    }
  }

  lemma HandledWhileUp(m: Manager, o: Output, env: Env, fsm: State)
    requires Handling(m, fsm, o) && Up(fsm) && m.reconnect.flow == Inactive
    requires o.PairWithTv? || o.InitializeConnection? || o.PassCommand?
    ensures StandsOrFalls(m, OnOutput(m, o, env), fsm, FootingOf(fsm, m.pairing))
  {
    hide SendToWs, InitializeTvConnection, Quiet, Grounded, StandsOn, Deliver;
    match o
    case PairWithTv => NothingStands(m.(pairing := true), fsm);
    case InitializeConnection => QueriesStandOrFall(m.(pairing := false), env.queryAnswers, fsm);
    case PassCommand(c) => SendStandsOrFalls(m, m, Command(c), env.answer, fsm);
  }

  // -------------------------------------------------------------------- every move

  /** What is known of a drained state with a connection up. */
  lemma UpRests(w: Wired)
    requires WiredInv(w) && w.b.pend == [] && Up(w.b.fsm)
    ensures RestingUp(w.b.m, w.b.fsm) && w.b.m.reconnect.flow == Inactive
    ensures w.b.fsm.Pairing? ==> w.b.m.pairing
  {
  }

  lemma UpHolds(b: Settled)
    requires Inv(b) && Standing(b)
    ensures b.m.ws.joinHandle.Some?
  {
  }

  lemma {:induction false} TalkedBefore(stage: Stage, us: seq<WsUpdate>)
    requires SaysAll(stage, us).Some? && !stage.Starting? && !stage.Dialling?
    ensures !SaysAll(stage, us).value.Starting? && !SaysAll(stage, us).value.Dialling?
    decreases |us|
  {
    if us != [] {
      TalkedBefore(Says(stage, us[0]).value, us[1..]);
    }
  }

  lemma UpIsTalking(w: Wired)
    requires WiredInv(w) && Up(w.b.fsm)
    ensures !w.line.heard.Starting? && !w.line.heard.Dialling?
    ensures !w.line.stage.Starting? && !w.line.stage.Dialling?
  {
    TalkedBefore(w.line.heard, w.line.inbox);
    hide Inv, SaysAll;
  }

  lemma DownIsFinal(t: Wired)
    requires IsDown(t.b) && !t.b.m.checker.operational
    ensures Final(t, None)
  {
    CutDownIsGone(t);
    hide IsDown, Gone;
  }

  lemma QuietIsFinal(t: Wired)
    requires Quiet(t.b) && t.b.m.manualDisconnect
    ensures Final(t, None)
  {
    hide Quiet;
  }

  /** A handler has left the connection up, down, or quiet; the line stays as it was. */
  lemma StandingStays(w: Wired, step: Step, farewell: seq<WsUpdate>)
    requires WiredInv(w) && CanTake(w, step, farewell) && Standing(w.b) && !Lasts(w) && !w.b.m.checker.operational
    requires !Reads(step) && !Starts(w.b, step)
    requires var t := After(w.b, step);
      && t.m.checker == w.b.m.checker
      && (StandsOn(t, FootingOf(w.b.fsm, w.b.m.pairing)) || IsDown(t) || (Quiet(t) && t.m.manualDisconnect))
    ensures var t := AfterMove(w, Take(step, farewell)); Unsaved(t) || Final(t, None)
  {
    var t := AfterMove(w, Take(step, farewell));
    MoveKeeps(w, Take(step, farewell));
    DeliverKeeps(Reacted(w.b, step), w.b.fsm, if step.HandleUpdate? then w.b.pend[1..] else []);
    if IsDown(t.b) {
      hide WiredInv, CanTake, AfterMove, Final, After, IsDown;
      DownIsFinal(t);
    } else if Standing(t.b) {
      UpHolds(t.b);
      assert w.line.inbox + [] == w.line.inbox;
      hide Inv, After, Quiet, Final, Standing, Recovers, Reacted;
    } else {
      hide WiredInv, CanTake, AfterMove, Final, After, Quiet;
      QuietIsFinal(t);
    }
  }

  lemma StandingUpdates(w: Wired, env: Env, farewell: seq<WsUpdate>)
    requires WiredInv(w) && CanTake(w, HandleUpdate(env), farewell) && Standing(w.b) && !Lasts(w)
    requires !w.b.m.checker.operational
    ensures var t := AfterMove(w, Take(HandleUpdate(env), farewell)); Unsaved(t) || Final(t, None)
    ensures !Dials(w.b, HandleUpdate(env))
  {
    var u := w.b.pend[0];
    var r := OnUpdate(w.b.m, u, env);
    if u.Emitted? {
      HandlingIsPlaced(w, u.output);
      OutputIsLast(w.b);
      HandledWhileUp(w.b.m, u.output, env, w.b.fsm);
    } else {
      SkippedUpdate(w.b.m.status, w.b.pend);
      NothingSent(r, w.b.fsm, w.b.pend[1..]);
    }
    hide WiredInv, Lasts, OnOutput, Quiet, Deliver, Final;
    StandingStays(w, HandleUpdate(env), farewell);
  }

  lemma OutputIsLast(b: Settled)
    requires OneOutput(b.pend) && b.pend != [] && b.pend[0].Emitted?
    ensures Tail(b.pend) == Some(b.pend[0].output) && b.pend == [b.pend[0]] && b.pend[1..] == []
  {
    LoneOutput(b.m.status, b.pend);
  }

  lemma StandingAsks(w: Wired, msg: ManagerMessage, env: Env, farewell: seq<WsUpdate>)
    requires WiredInv(w) && CanTake(w, HandleExternal(FromCaller(msg), env), farewell) && Standing(w.b) && !Lasts(w)
    requires !w.b.m.checker.operational
    ensures var t := AfterMove(w, Take(HandleExternal(FromCaller(msg), env), farewell)); Unsaved(t) || Final(t, None)
    ensures !Dials(w.b, HandleExternal(FromCaller(msg), env))
  {
    UpRests(w);
    AskedWhileUp(w.b.m, msg, env, w.b.fsm);
    hide WiredInv, Lasts, OnCaller, Quiet, Deliver, Final;
    StandingStays(w, HandleExternal(FromCaller(msg), env), farewell);
  }

  lemma StandingHears(w: Wired, u: WsUpdate, env: Env)
    requires WiredInv(w) && CanTake(w, HandleExternal(FromWs(u), env), []) && Standing(w.b) && !Lasts(w)
    requires !w.b.m.checker.operational
    ensures var t := AfterMove(w, Take(HandleExternal(FromWs(u), env), [])); Unsaved(t)
    ensures !Dials(w.b, HandleExternal(FromWs(u), env))
  {
    UpRests(w);
    UpIsTalking(w);
    ReadingIsCoherent(w.line);
    HearingSends(w.b.m, u, env);
    DeliverKeeps(OnWs(w.b.m, u, env), w.b.fsm, []);
    assert w.line.inbox[1..] + [] == w.line.inbox[1..];
    var t := AfterMove(w, Take(HandleExternal(FromWs(u), env), []));
    if Troubles(u) {
      TroubleIsHeard(w.b.m, u, env, w.b.fsm);
      hide WiredInv, OnWs, Deliver, Troubles, ReadOne;
      assert w.line.open ==> Held(FootingOf(w.b.fsm, w.b.m.pairing)) && w.b.m.pairing;
    } else {
      ElseIsHeard(w.b.m, u, env, w.b.fsm);
      hide WiredInv, OnWs, Deliver, Troubles, ReadOne, Hearing, FootingOf, Standing;
      assert StandsOn(t.b, Hearing(FootingOf(w.b.fsm, w.b.m.pairing), u));
    }
  }

  lemma GivenUpUpdates(w: Wired, step: Step, farewell: seq<WsUpdate>)
    requires WiredInv(w) && CanTake(w, step, farewell) && GivenUp(w.b) && !w.line.open && !w.b.m.checker.operational
    ensures var t := AfterMove(w, Take(step, farewell)); Unsaved(t) || Final(t, None)
    ensures !Dials(w.b, step)
  {
    assert w.b.pend != [];
    var env := step.env;
    var t := AfterMove(w, Take(step, farewell));
    if w.b.pend[0].Emitted? {
      HandlingIsPlaced(w, w.b.pend[0].output);
      OutputIsLast(w.b);
      ToldInVain(w.b.m, env, w.b.fsm);
      hide WiredInv, OnOutput, Deliver, IsDown, Final;
      DownIsFinal(t);
    } else {
      SkippedUpdate(w.b.m.status, w.b.pend);
      NothingSent(OnUpdate(w.b.m, w.b.pend[0], env), w.b.fsm, w.b.pend[1..]);
      assert w.line.inbox + [] == w.line.inbox;
      hide Tail, Inv, Final;
    }
  }

  lemma ToldInVain(m: Manager, env: Env, fsm: State)
    requires Handling(m, fsm, DisconnectFromTv) && !env.answer.sent
    ensures var r := OnOutput(m, DisconnectFromTv, env);
      && NoConnect(r.outbox) && IsDown(Deliver(r, fsm, [])) && Deliver(r, fsm, []).m.checker == m.checker
  {
    var m1 := OptionallyPrepareForReconnect(m, env.firstLoad, env.secondLoad);
    DS.PreparedFrame(m, env);
    hide OptionallyPrepareForReconnect, ForceReset;
    C.ResetKeepsChecker(HandToWs(m1, ShutDown), env.answer.disk);
    ResetGoesDown(HandToWs(m1, ShutDown), env.answer.disk, fsm);
  }

  lemma {:induction false} ClosedStaysClosed(s: State, ins: seq<Input>)
    requires (s.Disconnecting? || s == Disconnected) && NoConnect(ins)
    ensures RunState(s, ins).Disconnecting? || RunState(s, ins) == Disconnected
    decreases |ins|
  {
    if ins != [] {
      assert ins[0] in ins && forall i | i in ins[1..] :: i in ins;
      ClosedStaysClosed(Next(s, ins[0]), ins[1..]);
    }
  }

  lemma PairedStep(b: Settled, step: Step)
    requires Inv(b) && CanStep(b, step) && PairedDown(b) && !b.m.checker.operational
    ensures var t := After(b, step);
      && (PairedDown(t) || IsDown(t)) && !Dials(b, step) && Cut(t.m)
  {
    assert !Handles(b, step, InitializeConnection) by {
      if Handles(b, step, InitializeConnection) {
        OutputIsLast(b);
      }
      hide StillPairing;
    }
    hide Inv, StillPairing, IsDown, Handles, Reacted;
    PairingStep(b, step);
    ClosedStaysClosed(b.fsm, Reacted(b, step).outbox);
  }

  lemma SettledChecks(w: Wired, step: Step)
    requires CanStep(w.b, step)
    requires step.HandleExternal? ==> !AcceptsRequest(w.b.m, step.event)
    ensures C.ChecksOn(w.b.m, Reacted(w.b, step))
  {
    hide OnOutput, OnWs, OnNetwork, C.ChecksOn, AcceptsRequest, OnCaller;
    match step
    case HandleUpdate(env) =>
      match w.b.pend[0] {
        case Emitted(o) => C.OutputChecksOn(w.b.m, o, env);
        case NewState(s) => C.StatusChecksOn(w.b.m, s);
        case TransitionError(_, _) => C.StaysAsItIs(w.b.m);
      }
    case HandleExternal(ev, env) =>
      match ev {
        case FromCaller(msg) => C.AskingChecksOn(w.b.m, msg, env);
        case FromWs(u) => C.HearingChecksOn(w.b.m, u, env);
        case FromNetwork(onNetwork) => C.NoticingChecksOn(w.b.m, onNetwork, env);
      }
  }

  lemma UnsavedSpeaks(w: Wired, u: WsUpdate)
    requires WiredInv(w) && Unsaved(w) && CanMove(w, Speak(u))
    ensures Unsaved(AfterMove(w, Speak(u)))
  {
    if Standing(w.b) && !Lasts(w) {
      UpIsTalking(w);
      if w.line.open {
        SayingKeepsLost(FootingOf(w.b.fsm, w.b.m.pairing), w.line.inbox, w.line.stage, u);
      }
    }
    hide Inv, Standing, GivenUp, PairedDown, Recovers, SaysAll;
  }

  lemma StandingTakes(w: Wired, step: Step, farewell: seq<WsUpdate>)
    requires WiredInv(w) && CanTake(w, step, farewell) && Standing(w.b) && !Lasts(w) && !w.b.m.checker.operational
    ensures var t := AfterMove(w, Take(step, farewell)); Unsaved(t) || Final(t, None)
    ensures !Dials(w.b, step)
  {
    match step {
      case HandleUpdate(env) =>
        StandingUpdates(w, env, farewell);
      case HandleExternal(ev, env) =>
        match ev {
          case FromCaller(msg) => StandingAsks(w, msg, env, farewell);
          case FromWs(u) =>
            assert w.b.m.link == Open && w.b.m.outbox == [];
            HearingSends(w.b.m, u, env);
            StandingHears(w, u, env);
          case FromNetwork(_) =>
        }
    }
    hide WiredInv, Standing, Lasts, Unsaved, Final, Dials;
  }

  lemma UnsavedStays(w: Wired, mv: Move)
    requires WiredInv(w) && CanMove(w, mv) && Unsaved(w) && Unasked(w, mv, None)
    ensures Unsaved(AfterMove(w, mv)) || Final(AfterMove(w, mv), None)
    ensures !DialsBy(w, mv)
  {
    match mv
    case Speak(u) =>
      hide WiredInv, Unsaved, Final;
      UnsavedSpeaks(w, u);
    case Return => hide WiredInv, Standing, GivenUp, PairedDown, Final, Recovers;
    case Take(step, farewell) =>
      hide WiredInv, Standing, GivenUp, Lasts, Final, After, Cut, IsDown;
      if Standing(w.b) && !Lasts(w) {
        StandingTakes(w, step, farewell);
      } else if GivenUp(w.b) && !w.line.open {
        GivenUpUpdates(w, step, farewell);
      } else {
        PairedStays(w, step, farewell);
      }
  }

  lemma PairedStays(w: Wired, step: Step, farewell: seq<WsUpdate>)
    requires WiredInv(w) && CanTake(w, step, farewell) && PairedDown(w.b) && !w.b.m.checker.operational
    requires step.HandleExternal? ==> !AcceptsRequest(w.b.m, step.event)
    ensures var t := AfterMove(w, Take(step, farewell)); Unsaved(t) || Final(t, None)
    ensures !Dials(w.b, step)
  {
    var t := AfterMove(w, Take(step, farewell));
    assert Inv(w.b);
    hide WiredInv, Inv, PairedDown, After, Final, IsDown, AcceptsRequest, Reacted;
    PairedStep(w.b, step);
    SettledChecks(w, step);
    DeliverKeeps(Reacted(w.b, step), w.b.fsm, if step.HandleUpdate? then w.b.pend[1..] else []);
    assert !t.b.m.checker.operational by { AfterIsDelivered(w.b, step); }
    if IsDown(t.b) {
      DownIsFinal(t);
    }
  }

  lemma AfterIsDelivered(b: Settled, step: Step)
    requires CanStep(b, step)
    ensures After(b, step).m == Reacted(b, step).(outbox := [])
  {
  }

  // ------------------------------------------------------------------- every run

  /** Nothing dials from here unless asked for: it is final already; or every attempt is
      prevented; or no setting starts a flow; or a connection is lost for good. */
  predicate Hopeless(w: Wired) {
    Final(w, None) || Barred(w.b.m) || P.Plain(w.b.m) || Unsaved(w)
  }

  lemma BarredStays(w: Wired, step: Step)
    requires Inv(w.b) && CanStep(w.b, step) && Barred(w.b.m) && !Requests(w.b, step)
    ensures Barred(After(w.b, step).m) && !Dials(w.b, step)
  {
    assert w.b.m.outbox == [];
    hide Inv, After, Reacted, AcceptsRequest;
    SettledChecks(w, step);
    AfterIsDelivered(w.b, step);
  }

  lemma PlainStays(w: Wired, step: Step)
    requires Inv(w.b) && CanStep(w.b, step) && P.Plain(w.b.m) && !Requests(w.b, step)
    ensures P.Plain(After(w.b, step).m) && !Dials(w.b, step)
  {
    assert w.b.m.outbox == [];
    match step {
      case HandleUpdate(env) => P.UpdateStaysPlain(w.b.m, w.b.pend[0], env);
      case HandleExternal(ev, env) => P.ExternalStaysPlain(w.b.m, ev, env);
    }
    hide Inv, OnUpdate, OnExternal, AcceptsRequest;
    AfterIsDelivered(w.b, step);
  }

  lemma HopelessStays(w: Wired, mv: Move)
    requires WiredInv(w) && CanMove(w, mv) && Hopeless(w) && Unasked(w, mv, None)
    ensures Hopeless(AfterMove(w, mv)) && !DialsBy(w, mv)
  {
    MoveIsStep(w, mv);
    assert Inv(w.b);
    hide WiredInv, Inv, Final, Unsaved, After, CanTake, AfterMove, P.Plain, Barred, Reacted;
    if Final(w, None) {
      FinalStays(w, mv, None);
    } else if Unsaved(w) {
      UnsavedStays(w, mv);
    } else if mv.Take? {
      if Barred(w.b.m) {
        BarredStays(w, mv.step);
      } else {
        PlainStays(w, mv.step);
      }
    }
  }

  lemma {:induction false} HopelessRun(w: Wired, mvs: seq<Move>)
    requires WiredInv(w) && Hopeless(w)
    ensures !DialsUnasked(w, mvs, None)
    decreases |mvs|
  {
    hide WiredInv, Hopeless, CanMove, AfterMove, Unasked, DialsBy;
    if mvs != [] && CanMove(w, mvs[0]) && Unasked(w, mvs[0], None) {
      HopelessStays(w, mvs[0]);
      MoveKeeps(w, mvs[0]);
      HopelessRun(AfterMove(w, mvs[0]), mvs[1..]);
    }
  }

  /** Main result: from such a state no run dials unasked. */
  lemma HopelessNeverDials(w: Wired)
    requires WiredInv(w) && Hopeless(w)
    ensures !CanDial(w, None)
  {
    hide WiredInv, Hopeless, DialsUnasked;
    forall mvs ensures !DialsUnasked(w, mvs, None) {
      HopelessRun(w, mvs);
    }
  }
}
