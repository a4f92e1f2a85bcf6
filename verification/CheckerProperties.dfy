/** What the network checker means for the reconnect flow, whatever the interleaving. */
module CheckerProperties {
  import opened StateMachine
  import opened ManagerModel
  import opened ManagerFacts
  import opened Async
  import opened AsyncProperties

  /** A flow that waits for the TV has a checker to hear from. */
  predicate Watched(m: Manager) {
    m.reconnect.flow == WaitingForTvOnNetwork ==> m.checker.operational
  }

  predicate Unheard(m: Manager) {
    Barred(m) && NoConnect(m.outbox)
  }

  /** One handler keeps the checker, and a barred flow from dialling. */
  predicate ChecksOn(m: Manager, r: Manager) {
    && r.checker.operational == m.checker.operational
    && (Watched(m) ==> Watched(r))
    && (Unheard(m) ==> Unheard(r))
  }

  // --------------------------------------------------------------- the handlers

  lemma ResetChecksOn(m: Manager, disk: Disk)
    ensures ChecksOn(m, ForceReset(m, disk))
  {
  }

  lemma SendChecksOn(m: Manager, w: WsMessage, a: Answer)
    ensures ChecksOn(m, SendToWs(m, w, a))
  {
    ResetChecksOn(HandToWs(m, w), a.disk);
    hide ForceReset;
  }

  lemma {:induction false} QueriesCheckOn(m: Manager, answers: seq<Answer>)
    ensures ChecksOn(m, SendQueries(m, answers))
    decreases |answers|
  {
    hide SendToWs;
    if answers != [] {
      var n := |answers| - 1;
      QueriesCheckOn(m, answers[..n]);
      SendChecksOn(SendQueries(m, answers[..n]), Query(n), answers[n]);
    }
  }

  lemma PrepareChecksOn(m: Manager, env: Env)
    requires Plausible(m, env)
    ensures ChecksOn(m, OptionallyPrepareForReconnect(m, env.firstLoad, env.secondLoad))
  {
  }

  lemma FsmChecksOn(m: Manager, i: Input)
    requires !i.Connect?
    ensures ChecksOn(m, SendToFsm(m, i))
  {
  }

  /** A retry is under way. */
  lemma RetryIsWatched(m: Manager, c: Connection, immediate: bool)
    requires m.reconnect.flow == Active
    ensures Retry(m, c, immediate).checker.operational == m.checker.operational && Watched(Retry(m, c, immediate))
  {
  }

  lemma AttemptChecksOn(m: Manager, immediate: bool, env: Env)
    requires Plausible(m, env)
    ensures ChecksOn(m, InitiateReconnect(m, immediate, env))
  {
    if env.reconnectLoad || !m.checker.operational {
      assert !Barred(m);
      var m1 := SetFlow(m, Active);
      ResetChecksOn(SetFlow(m1, Inactive), env.resetDisk);
      if m1.connection.Some? {
        RetryIsWatched(m1, m1.connection.value, immediate);
      }
    }
    hide ForceReset, Retry, NoConnect;
  }

  lemma CompletionChecksOn(m: Manager, env: Env)
    requires Plausible(m, env)
    ensures ChecksOn(m, HandleDisconnected(m.(manualDisconnect := false), env))
  {
    AttemptChecksOn(InitializeManagerState(AwaitHandler(m.(manualDisconnect := false)), env.answer.disk), false, env);
    hide InitiateReconnect;
  }

  lemma FailureChecksOn(m: Manager, env: Env)
    requires Plausible(m, env)
    ensures ChecksOn(m, OnOutput(m, HandleConnectError, env))
  {
    ResetChecksOn(m, env.answer.disk);
    ResetKeepsChecker(m, env.answer.disk);
    AttemptChecksOn(ForceReset(m, env.answer.disk), false, env);
    hide ForceReset, InitiateReconnect, ShouldRetryConnectFailure;
  }

  lemma ResetKeepsChecker(m: Manager, disk: Disk)
    ensures ForceReset(m, disk).checker == m.checker
  {
  }

  lemma OutputChecksOn(m: Manager, o: Output, env: Env)
    requires Plausible(m, env)
    ensures ChecksOn(m, OnOutput(m, o, env))
  {
    hide SendToWs, SendQueries, OptionallyPrepareForReconnect, HandleDisconnected, ForceReset, InitiateReconnect;
    match o
    case ConnectToTv(_) =>
    case SendRegisterPayload =>
      SendChecksOn(SetFlow(m, Inactive).(sessions := m.sessions + 1), Register, env.answer);
    case PairWithTv =>
    case InitializeConnection => QueriesCheckOn(m.(pairing := false), env.queryAnswers);
    case PassCommand(c) => SendChecksOn(m, Command(c), env.answer);
    case DisconnectFromTv =>
      PrepareChecksOn(m, env);
      SendChecksOn(OptionallyPrepareForReconnect(m, env.firstLoad, env.secondLoad), ShutDown, env.answer);
    case HandleSuccessfulDisconnect => CompletionChecksOn(m, env);
    case HandleDisconnectError => CompletionChecksOn(m, env);
    case HandleConnectError => FailureChecksOn(m, env);
  }

  lemma ResponseChecksOn(m: Manager, r: TvResponse)
    ensures ChecksOn(m, OnResponse(m, r))
  {
  }

  lemma HearingChecksOn(m: Manager, u: WsUpdate, env: Env)
    requires Plausible(m, env)
    ensures ChecksOn(m, OnWs(m, u, env))
  {
    PrepareChecksOn(m, env);
    hide OptionallyPrepareForReconnect, OnResponse, SendToFsm, Watched, Unheard;
    match u
    case WsPayload(r) => ResponseChecksOn(m, r);
    case WsIdle => StaysAsItIs(m);
    case WsConnected => FsmChecksOn(m, AttemptRegister);
    case WsDisconnected => FsmChecksOn(m, DisconnectionComplete);
    case WsConnectionOk(_) =>
      StaysAsItIs(m);
      FsmChecksOn(m, Error);
    case _ => FsmChecksOn(OptionallyPrepareForReconnect(m, env.firstLoad, env.secondLoad), Error);
  }

  lemma NoticingChecksOn(m: Manager, onNetwork: bool, env: Env)
    requires Plausible(m, env) && Pings(m)
    ensures ChecksOn(m, OnNetwork(m, onNetwork, env))
  {
    AttemptChecksOn(Noticed(m, onNetwork), true, env);
    hide InitiateReconnect;
  }

  lemma AskingChecksOn(m: Manager, msg: ManagerMessage, env: Env)
    requires !AcceptsRequest(m, FromCaller(msg))
    ensures ChecksOn(m, OnCaller(m, msg, env))
  {
    hide SendToWs, ForceReset;
    match msg
    case CancelReconnect => ResetChecksOn(SetFlow(m, Cancelled), env.answer.disk);
    case ShutDownManager => SendChecksOn(m.(link := Closed), ShutDown, env.answer);
    case CallerTestConnection => SendChecksOn(m, TestConnection, env.answer);
    case _ =>
  }

  lemma RequestChecksOn(m: Manager, c: Connection)
    requires CanConnect(m, c)
    ensures var r := InitiateConnectToTv(m, c);
      && r.checker.operational == m.checker.operational && Watched(r)
      && (Barred(m) && !c.hasAddress ==> Barred(r))
  {
  }

  // ------------------------------------------------------------------- the runs

  lemma StepChecksOn(s: System, step: Step)
    requires Enabled(s, step)
    ensures if step.HandleExternal? && AcceptsRequest(s.m, step.event)
            then (var m1 := ManagerAfter(s, step);
                  && m1.checker.operational == s.m.checker.operational && Watched(m1)
                  && (Barred(s.m) && !Requested(s.m, step.event).value.hasAddress ==> Barred(m1)))
            else ChecksOn(s.m, ManagerAfter(s, step))
  {
    hide OnOutput, OnWs, OnNetwork, ChecksOn, Watched, InitiateConnectToTv, ForceReset, SendToWs;
    match step
    case ConsumeInput => assert ChecksOn(s.m, s.m) by { StaysAsItIs(s.m); }
    case HandleUpdate(env) =>
      match s.pending[0] {
        case Emitted(o) => OutputChecksOn(s.m, o, env);
        case NewState(t) => StatusChecksOn(s.m, t);
        case TransitionError(_, _) => StaysAsItIs(s.m);
      }
    case HandleExternal(ev, env) =>
      match ev {
        case FromCaller(msg) =>
          if AcceptsRequest(s.m, ev) {
            RequestChecksOn(s.m, Requested(s.m, ev).value);
          } else {
            AskingChecksOn(s.m, msg, env);
          }
        case FromWs(u) => HearingChecksOn(s.m, u, env);
        case FromNetwork(onNetwork) => NoticingChecksOn(s.m, onNetwork, env);
      }
  }

  lemma StaysAsItIs(m: Manager)
    ensures ChecksOn(m, m)
  {
  }

  lemma StatusChecksOn(m: Manager, s: State)
    ensures ChecksOn(m, m.(status := s))
  {
  }

  lemma {:induction false} RunIsWatched(s: System, steps: seq<Step>)
    requires Possible(s, steps) && Watched(s.m)
    ensures Watched(Run(s, steps).m) && Run(s, steps).m.checker.operational == s.m.checker.operational
    decreases |steps|
  {
    if steps != [] {
      StepChecksOn(s, steps[0]);
      assert Apply(s, steps[0]).m == ManagerAfter(s, steps[0]).(outbox := Apply(s, steps[0]).m.outbox);
      hide Apply, ManagerAfter, Enabled;
      RunIsWatched(Apply(s, steps[0]), steps[1..]);
    }
  }

  /** Main result: in every run, a flow waits for the TV only if the network checker
      was started. */
  lemma WaitingHasChecker(created: Disk, started: Disk, operational: bool, steps: seq<Step>)
    requires Possible(Start(created, started, operational), steps)
    ensures var m := Run(Start(created, started, operational), steps).m;
      m.reconnect.flow == WaitingForTvOnNetwork ==> operational
  {
    RunIsWatched(Start(created, started, operational), steps);
  }

  /** Every accepted request is for a TV named by its host. */
  predicate AsksByName(s: System, steps: seq<Step>)
    requires Possible(s, steps)
    decreases |steps|
  {
    steps == [] ||
    (&& (steps[0].HandleExternal? && AcceptsRequest(s.m, steps[0].event) ==>
           !Requested(s.m, steps[0].event).value.hasAddress)
     && AsksByName(Apply(s, steps[0]), steps[1..]))
  }

  /** Every Connect is sent by the step that accepts a request. */
  predicate DialsOnlyOnRequest(s: System, steps: seq<Step>)
    requires Possible(s, steps)
    decreases |steps|
  {
    steps == [] ||
    (&& (!(steps[0].HandleExternal? && AcceptsRequest(s.m, steps[0].event)) ==> NoConnect(ManagerAfter(s, steps[0]).outbox))
     && DialsOnlyOnRequest(Apply(s, steps[0]), steps[1..]))
  }

  lemma {:induction false} BarredRun(s: System, steps: seq<Step>)
    requires Possible(s, steps) && Inv(s) && Barred(s.m) && AsksByName(s, steps)
    ensures DialsOnlyOnRequest(s, steps)
    decreases |steps|
  {
    if steps != [] {
      var m1 := ManagerAfter(s, steps[0]);
      StepChecksOn(s, steps[0]);
      StepHolds(s, steps[0]);
      assert NoConnect(s.m.outbox);
      assert Apply(s, steps[0]).m.checker == m1.checker;
      hide Apply, ManagerAfter, Enabled, Inv;
      BarredRun(Apply(s, steps[0]), steps[1..]);
    }
  }

  /** Main result: with the checker started, TVs that are named by host and not by
      address are never reconnected to: whatever the settings and the order of
      events, every Connect is sent on an accepted request. */
  lemma HostNamesAreNeverRetried(created: Disk, started: Disk, steps: seq<Step>)
    requires Possible(Start(created, started, true), steps)
    requires AsksByName(Start(created, started, true), steps)
    ensures DialsOnlyOnRequest(Start(created, started, true), steps)
  {
    StartHolds(created, started, true);
    assert Barred(Start(created, started, true).m);
    hide Inv, Start;
    BarredRun(Start(created, started, true), steps);
  }
}
