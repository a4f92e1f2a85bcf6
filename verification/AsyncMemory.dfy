/** What the manager remembers, told from the steps of the run: whatever the
    interleaving. */
module AsyncMemory {
  import opened Wrappers
  import opened StateMachine
  import opened ManagerModel
  import opened ManagerFacts
  import opened ReconnectHistory
  import opened HandlerLog
  import opened Async
  import opened AsyncProperties

  /** The fields that outlive a handler of the loop. */
  datatype Memory = Memory(
    manual: bool,
    initialized: bool,
    pairing: bool,
    sessions: nat,
    lastGood: Option<Connection>,
    onNetwork: bool)

  function MemoryOf(m: Manager): Memory {
    Memory(m.manualDisconnect, m.initialized, m.pairing, m.sessions, m.lastGood, m.checker.wasOnNetwork)
  }

  // ---------------------------------------------------------------- what a step means

  predicate Handles(s: System, step: Step, o: Output)
    requires Enabled(s, step)
  {
    step.HandleUpdate? && s.pending[0] == Emitted(o)
  }

  /** A disconnect is handled as complete, with success or not. */
  predicate Completes(s: System, step: Step)
    requires Enabled(s, step)
  {
    Handles(s, step, HandleSuccessfulDisconnect) || Handles(s, step, HandleDisconnectError)
  }

  predicate Asks(step: Step, msg: ManagerMessage) {
    step.HandleExternal? && step.event == FromCaller(msg)
  }

  /** The connection is cleared away: a disconnect completed, or a reset sent. */
  predicate Clears(s: System, step: Step)
    requires Enabled(s, step)
  {
    Completes(s, step) || Resets(ManagerAfter(s, step).outbox) > 0
  }

  /** ... and no target is left. */
  predicate Forgets(s: System, step: Step)
    requires Enabled(s, step)
  {
    Clears(s, step) && ManagerAfter(s, step).connection.None?
  }

  /** What is remembered after a step: a disconnect asked for, until one completes; a first
      volume, until the connection is cleared away; a pairing, from its prompt until it has
      succeeded, or was given up with a retry due, or the target is forgotten; the sessions
      had with the target; the connection last initialized, if there was one; and the
      network as last notified. */
  function Recalls(s: System, step: Step, was: Memory): Memory
    requires Enabled(s, step)
  {
    Memory(
      if Asks(step, CallerDisconnect) then true else was.manual && !Completes(s, step),
      if step.HandleExternal? && step.event == FromWs(WsPayload(Volume)) then true else was.initialized && !Clears(s, step),
      if Handles(s, step, PairWithTv) then true
      else if Handles(s, step, InitializeConnection) || Forgets(s, step) then false
      else was.pairing && !(Completes(s, step) && s.m.reconnect.flow == Active),
      if Forgets(s, step) then 0
      else if Handles(s, step, SendRegisterPayload) then was.sessions + 1
      else was.sessions,
      if Handles(s, step, InitializeConnection) && ManagerAfter(s, step).connection.Some?
      then ManagerAfter(s, step).connection
      else was.lastGood,
      if step.HandleExternal? && step.event.FromNetwork? then step.event.onNetwork else was.onNetwork)
  }

  // ------------------------------------------------------------ what a handler does

  predicate Targeted(m: Manager) {
    KeepsTarget(m.reconnect.flow) ==> m.connection.Some?
  }

  function ClearedMemory(was: Memory, kept: bool): Memory {
    was.(initialized := false, pairing := was.pairing && kept, sessions := if kept then was.sessions else 0)
  }

  /** From `m` to `r` nothing is forgotten but by a reset. */
  predicate Retains(m: Manager, r: Manager) {
    && r.link == m.link && (Targeted(m) ==> Targeted(r)) && Resets(m.outbox) <= Resets(r.outbox)
    && (Targeted(m) ==>
          if Resets(m.outbox) < Resets(r.outbox)
          then MemoryOf(r) == ClearedMemory(MemoryOf(m), r.connection.Some?) && (r.connection.Some? ==> r.connection == m.connection)
          else MemoryOf(r) == MemoryOf(m) && r.connection == m.connection)
  }

  lemma RetainsOn(m: Manager, a: Manager, r: Manager)
    requires Retains(m, a) && Retains(a, r)
    ensures Retains(m, r)
  {
    hide Resets;
  }

  lemma RetainsAll(m: Manager, r: Manager)
    requires r.link == m.link && MemoryOf(r) == MemoryOf(m) && r.connection == m.connection
    requires Resets(r.outbox) == Resets(m.outbox) && (Targeted(m) ==> Targeted(r))
    ensures Retains(m, r)
  {
    hide Resets;
  }

  lemma ResetRetains(m: Manager, disk: Disk)
    requires m.link == Open
    ensures Retains(m, ForceReset(m, disk)) && Resets(ForceReset(m, disk).outbox) == Resets(m.outbox) + 1
  {
    CollectSnoc(ResetIn, m.outbox, Reset);
    hide Collect;
  }

  lemma SendRetains(m: Manager, w: WsMessage, a: Answer)
    requires m.link == Open
    ensures Retains(m, SendToWs(m, w, a))
  {
    hide ForceReset, Resets;
    ResetRetains(HandToWs(m, w), a.disk);
    RetainsAll(m, m);
    RetainsAll(m, HandToWs(m, w));
    RetainsOn(m, HandToWs(m, w), ForceReset(HandToWs(m, w), a.disk));
  }

  lemma {:induction false} QueriesRetain(m: Manager, answers: seq<Answer>)
    requires m.link == Open
    ensures Retains(m, SendQueries(m, answers))
    decreases |answers|
  {
    hide Resets, SendToWs;
    if answers == [] {
      RetainsAll(m, m);
    } else {
      var n := |answers| - 1;
      var before := SendQueries(m, answers[..n]);
      QueriesRetain(m, answers[..n]);
      SendRetains(before, Query(n), answers[n]);
      RetainsOn(m, before, SendToWs(before, Query(n), answers[n]));
    }
  }

  lemma PrepareRetains(m: Manager, env: Env)
    ensures Retains(m, OptionallyPrepareForReconnect(m, env.firstLoad, env.secondLoad))
  {
    hide Resets;
    RetainsAll(m, OptionallyPrepareForReconnect(m, env.firstLoad, env.secondLoad));
  }

  lemma FsmRetains(m: Manager, i: Input)
    requires !i.Reset? && m.link == Open
    ensures Retains(m, SendToFsm(m, i))
  {
    CollectSnoc(ResetIn, m.outbox, i);
    hide Collect;
    RetainsAll(m, SendToFsm(m, i));
  }

  /** A request changes the target, and nothing else that is remembered. */
  lemma ConnectRetains(m: Manager, c: Connection)
    requires m.link == Open
    ensures MemoryOf(InitiateConnectToTv(m, c)) == MemoryOf(m)
    ensures Resets(InitiateConnectToTv(m, c).outbox) == Resets(m.outbox)
    ensures m.connection == Some(c) ==> Retains(m, InitiateConnectToTv(m, c))
  {
    if CanConnect(m, c) {
      CollectSnoc(ResetIn, m.outbox, Connect(c.wsUrl.value));
    }
    hide Collect;
  }

  lemma AttemptRetains(m: Manager, immediate: bool, env: Env)
    requires m.link == Open && Targeted(m) && KeepsTarget(m.reconnect.flow)
    ensures Retains(m, InitiateReconnect(m, immediate, env))
  {
    hide Resets, ForceReset, InitiateConnectToTv;
    var m1 := SetFlow(m, Active);
    RetainsAll(m, m);
    RetainsAll(m, m1);
    if !(!env.reconnectLoad && m.checker.operational) {
      if m1.wsUrl.None? {
        var m2 := SetFlow(m1, Inactive);
        RetainsAll(m, m2);
        ResetRetains(m2, env.resetDisk);
        RetainsOn(m, m2, ForceReset(m2, env.resetDisk));
      } else {
        var m2 := m1.(reconnect := CountRetry(m1.reconnect, immediate));
        RetainsAll(m, m2);
        ConnectRetains(m2, m1.connection.value);
        RetainsOn(m, m2, InitiateConnectToTv(m2, m1.connection.value));
      }
    }
  }

  lemma FailureRetains(m: Manager, env: Env)
    requires m.link == Open && Targeted(m)
    ensures Retains(m, OnOutput(m, HandleConnectError, env))
    ensures Resets(m.outbox) < Resets(OnOutput(m, HandleConnectError, env).outbox)
  {
    var m1 := ForceReset(m, env.answer.disk);
    ResetRetains(m, env.answer.disk);
    hide Resets, ForceReset, InitiateReconnect, ShouldRetryConnectFailure;
    if m1.reconnect.flow == Active {
      AttemptRetains(m1, false, env);
      RetainsOn(m, m1, InitiateReconnect(m1, false, env));
    }
    RetainsAll(m1, SetFlow(m1, Inactive));
    RetainsOn(m, m1, SetFlow(m1, Inactive));
  }

  /** A completed disconnect clears the connection away, and the request for it. */
  lemma CompletionRecalls(m: Manager, env: Env)
    requires m.link == Open && Targeted(m) && m.outbox == []
    ensures var r := HandleDisconnected(m.(manualDisconnect := false), env);
      && r.link == Open && Targeted(r)
      && var kept := r.connection.Some?;
      && MemoryOf(r) == ClearedMemory(MemoryOf(m), kept).(manual := false,
           pairing := m.pairing && kept && m.reconnect.flow != Active)
  {
    var m1 := InitializeManagerState(AwaitHandler(m.(manualDisconnect := false)), env.answer.disk);
    assert MemoryOf(m1) == ClearedMemory(MemoryOf(m), m1.connection.Some?).(manual := false);
    assert Targeted(m1) && m1.link == Open && m1.outbox == [] && (m1.reconnect.flow == Active <==> m.reconnect.flow == Active);
    if m1.reconnect.flow == Active && !m1.pairing {
      AttemptRetains(m1, false, env);
    }
    hide InitiateReconnect, InitializeManagerState, Resets;
  }

  lemma ResponseRetains(m: Manager, r: TvResponse)
    requires m.link == Open
    ensures r != Volume ==> Retains(m, OnResponse(m, r))
    ensures r == Volume ==>
      MemoryOf(OnResponse(m, r)) == MemoryOf(m).(initialized := true) && Targeted(OnResponse(m, r)) == Targeted(m)
    ensures Resets(OnResponse(m, r).outbox) == Resets(m.outbox)
  {
    CollectSnoc(ResetIn, m.outbox, StartCommunication);
    CollectSnoc(ResetIn, m.outbox, Pair);
    CollectSnoc(ResetIn, m.outbox, Error);
    CollectSnoc(ResetIn, m.outbox, Initialize);
    hide Collect;
  }

  // -------------------------------------------------------------------- every step

  predicate Begun(s: System) {
    Inv(s) && s.m.running
  }

  lemma BegunFacts(s: System)
    requires Begun(s)
    ensures s.m.link == Open && s.m.outbox == [] && Targeted(s.m) && Resets(s.m.outbox) == 0
    ensures s.m.reconnect.flow == WaitingForTvOnNetwork ==> s.m.connection.Some?
  {
  }

  /** A handler of a running manager recalls what is told. */
  predicate Recalled(s: System, step: Step)
    requires Enabled(s, step)
  {
    MemoryOf(ManagerAfter(s, step)) == Recalls(s, step, MemoryOf(s.m))
  }

  /** What is left of a memory by a handler that may reset. */
  function Left(m: Manager, r: Manager): Memory {
    if Resets(r.outbox) > 0 then ClearedMemory(MemoryOf(m), r.connection.Some?) else MemoryOf(m)
  }

  lemma RetainedIsLeft(m: Manager, r: Manager)
    requires Retains(m, r) && Targeted(m) && Resets(m.outbox) == 0
    ensures MemoryOf(r) == Left(m, r)
  {
    hide Resets;
  }

  /** An update that touches nothing that is remembered, but for a reset. */
  lemma PlainUpdateRecalls(s: System, env: Env, o: Output)
    requires Enabled(s, HandleUpdate(env)) && s.pending[0] == Emitted(o)
    requires o.ConnectToTv? || o.PassCommand? || o.DisconnectFromTv? || o.HandleConnectError?
    requires MemoryOf(OnOutput(s.m, o, env)) == Left(s.m, OnOutput(s.m, o, env))
    ensures Recalled(s, HandleUpdate(env))
  {
    hide OnOutput, Resets;
  }

  /** The manager as it registers. */
  function Registering(m: Manager): Manager {
    SetFlow(m, Inactive).(sessions := m.sessions + 1)
  }

  lemma RegisteringFacts(m: Manager, env: Env)
    ensures OnOutput(m, SendRegisterPayload, env) == SendToWs(Registering(m), Register, env.answer)
    ensures Targeted(Registering(m)) && Registering(m).link == m.link && Registering(m).outbox == m.outbox
    ensures MemoryOf(Registering(m)) == MemoryOf(m.(sessions := m.sessions + 1))
  {
    hide SendToWs;
  }

  lemma RegisterLeaves(m: Manager, env: Env)
    requires m.link == Open && Resets(m.outbox) == 0
    ensures MemoryOf(OnOutput(m, SendRegisterPayload, env)) ==
      Left(m.(sessions := m.sessions + 1), OnOutput(m, SendRegisterPayload, env))
  {
    RegisteringFacts(m, env);
    hide Resets, OnOutput, SendToWs, Retains, Registering, MemoryOf, Targeted;
    SendRetains(Registering(m), Register, env.answer);
    RetainedIsLeft(Registering(m), SendToWs(Registering(m), Register, env.answer));
  }

  lemma RegisterRecalls(s: System, env: Env)
    requires Begun(s) && Enabled(s, HandleUpdate(env)) && s.pending[0] == Emitted(SendRegisterPayload)
    ensures Recalled(s, HandleUpdate(env))
  {
    BegunFacts(s);
    RegisterLeaves(s.m, env);
    hide Resets, OnOutput, Inv;
  }

  lemma InitializationLeaves(m: Manager, env: Env)
    requires m.link == Open && Targeted(m) && Resets(m.outbox) == 0
    ensures var r := OnOutput(m, InitializeConnection, env);
      MemoryOf(r) == Left(m.(pairing := false), r).(lastGood := if r.connection.Some? then r.connection else m.lastGood)
  {
    var m1 := m.(pairing := false);
    QueriesRetain(m1, env.queryAnswers);
    hide Resets, SendQueries, Retains;
    RetainedIsLeft(m1, SendQueries(m1, env.queryAnswers));
  }

  lemma InitializationRecalls(s: System, env: Env)
    requires Begun(s) && Enabled(s, HandleUpdate(env)) && s.pending[0] == Emitted(InitializeConnection)
    ensures Recalled(s, HandleUpdate(env))
  {
    BegunFacts(s);
    InitializationLeaves(s.m, env);
    hide Resets, OnOutput, Inv;
  }

  lemma CompletionIsRecalled(s: System, env: Env, o: Output)
    requires Begun(s) && Enabled(s, HandleUpdate(env)) && s.pending[0] == Emitted(o)
    requires o == HandleSuccessfulDisconnect || o == HandleDisconnectError
    ensures Recalled(s, HandleUpdate(env))
  {
    BegunFacts(s);
    CompletionRecalls(s.m, env);
    hide Resets, HandleDisconnected, Inv;
  }

  lemma TellingRetains(m: Manager, env: Env)
    requires m.link == Open
    ensures Retains(m, OnOutput(m, DisconnectFromTv, env))
  {
    var m1 := OptionallyPrepareForReconnect(m, env.firstLoad, env.secondLoad);
    PrepareRetains(m, env);
    assert m1.link == m.link;
    hide Resets, OptionallyPrepareForReconnect, SendToWs, Retains;
    SendRetains(m1, ShutDown, env.answer);
    RetainsOn(m, m1, SendToWs(m1, ShutDown, env.answer));
  }

  lemma OutputRecalls(s: System, env: Env)
    requires Begun(s) && Enabled(s, HandleUpdate(env)) && s.pending[0].Emitted?
    ensures Recalled(s, HandleUpdate(env))
  {
    var m, o := s.m, s.pending[0].output;
    BegunFacts(s);
    match o
    case ConnectToTv(_) => RetainsAll(m, OnOutput(m, o, env));
      RetainedIsLeft(m, OnOutput(m, o, env));
      hide Begun, OnOutput, Recalled;
      PlainUpdateRecalls(s, env, o);
    case PairWithTv => hide Inv, Resets;
    case SendRegisterPayload => RegisterRecalls(s, env);
    case InitializeConnection => InitializationRecalls(s, env);
    case PassCommand(c) =>
      SendRetains(m, Command(c), env.answer);
      hide Begun, Recalled, SendToWs, Resets;
      RetainedIsLeft(m, OnOutput(m, o, env));
      PlainUpdateRecalls(s, env, o);
    case DisconnectFromTv =>
      hide Begun, Recalled, OnOutput, Resets;
      TellingRetains(m, env);
      RetainedIsLeft(m, OnOutput(m, o, env));
      PlainUpdateRecalls(s, env, o);
    case HandleSuccessfulDisconnect => CompletionIsRecalled(s, env, o);
    case HandleDisconnectError => CompletionIsRecalled(s, env, o);
    case HandleConnectError =>
      hide Begun, Recalled, OnOutput, Resets;
      FailureRetains(m, env);
      RetainedIsLeft(m, OnOutput(m, o, env));
      PlainUpdateRecalls(s, env, o);
  }

  /** An outside event that touches nothing that is remembered, but for a reset. */
  lemma PlainEventRecalls(s: System, ev: External, env: Env)
    requires Enabled(s, HandleExternal(ev, env)) && !ev.FromNetwork?
    requires ev != FromCaller(CallerDisconnect) && ev != FromWs(WsPayload(Volume))
    requires MemoryOf(OnExternal(s.m, ev, env)) == Left(s.m, OnExternal(s.m, ev, env))
    ensures Recalled(s, HandleExternal(ev, env))
  {
    hide OnExternal, Resets;
  }

  lemma AskingRetains(m: Manager, msg: ManagerMessage, env: Env)
    requires m.link == Open && Targeted(m) && Resets(m.outbox) == 0 && msg != ShutDownManager && msg != CallerDisconnect
    ensures MemoryOf(OnCaller(m, msg, env)) == Left(m, OnCaller(m, msg, env))
  {
    hide Resets, SendToWs, ForceReset, InitiateConnectToTv, SendToFsm, Retains;
    RetainsAll(m, m);
    match msg
    case CancelReconnect =>
      var m1 := SetFlow(m, Cancelled);
      RetainsAll(m, m1);
      ResetRetains(m1, env.answer.disk);
      RetainsOn(m, m1, ForceReset(m1, env.answer.disk));
      RetainedIsLeft(m, OnCaller(m, msg, env));
    case ConnectTo(c) => ConnectRetains(m, c);
    case ConnectLastGoodConnection =>
      if m.lastGood.Some? {
        ConnectRetains(m, m.lastGood.value);
      }
    case SendTvCommand(c) =>
      FsmRetains(m, SendCommand(c));
      RetainedIsLeft(m, OnCaller(m, msg, env));
    case CallerTestConnection =>
      SendRetains(m, TestConnection, env.answer);
      RetainedIsLeft(m, OnCaller(m, msg, env));
    case OtherRequest =>
  }

  lemma HearingRetains(m: Manager, u: WsUpdate, env: Env)
    requires m.link == Open && u != WsPayload(Volume)
    ensures Retains(m, OnWs(m, u, env))
  {
    var m1 := OptionallyPrepareForReconnect(m, env.firstLoad, env.secondLoad);
    PrepareRetains(m, env);
    assert m1.link == Open;
    hide Resets, OnResponse, OptionallyPrepareForReconnect, SendToFsm, Retains;
    RetainsAll(m, m);
    match u
    case WsPayload(r) => ResponseRetains(m, r);
    case WsIdle =>
    case WsConnected => FsmRetains(m, AttemptRegister);
    case WsDisconnected => FsmRetains(m, DisconnectionComplete);
    case WsConnectionOk(_) => FsmRetains(m, Error);
    case _ =>
      FsmRetains(m1, Error);
      RetainsOn(m, m1, SendToFsm(m1, Error));
  }

  lemma HearingRecalls(s: System, u: WsUpdate, env: Env)
    requires Begun(s) && Enabled(s, HandleExternal(FromWs(u), env))
    ensures Recalled(s, HandleExternal(FromWs(u), env))
  {
    BegunFacts(s);
    if u == WsPayload(Volume) {
      ResponseRetains(s.m, Volume);
      hide OnResponse, Resets, Inv;
    } else {
      HearingRetains(s.m, u, env);
      hide OnWs, Resets, Begun, Recalled;
      RetainedIsLeft(s.m, OnWs(s.m, u, env));
      PlainEventRecalls(s, FromWs(u), env);
    }
  }

  lemma NoticingRetains(m: Manager, onNetwork: bool, env: Env)
    requires m.link == Open && Targeted(m)
    ensures Retains(Noticed(m, onNetwork), OnNetwork(m, onNetwork, env))
  {
    var m1 := Noticed(m, onNetwork);
    hide Resets, InitiateReconnect, SendToFsm;
    FsmRetains(m1, Error);
    RetainsAll(m1, m1);
    RetainsAll(m1, SetFlow(m1, if AutoReconnect(m1) then WaitingForTvOnNetwork else Inactive));
    if m1.reconnect.flow == WaitingForTvOnNetwork {
      AttemptRetains(m1, true, env);
    }
  }

  lemma NoticingRecalls(s: System, onNetwork: bool, env: Env)
    requires Begun(s) && Enabled(s, HandleExternal(FromNetwork(onNetwork), env))
    ensures Recalled(s, HandleExternal(FromNetwork(onNetwork), env))
  {
    BegunFacts(s);
    NoticingRetains(s.m, onNetwork, env);
    hide OnNetwork, Resets, Inv;
    RetainedIsLeft(Noticed(s.m, onNetwork), OnNetwork(s.m, onNetwork, env));
  }

  lemma ExternalRecalls(s: System, ev: External, env: Env)
    requires Begun(s) && Enabled(s, HandleExternal(ev, env)) && ev != FromCaller(ShutDownManager)
    ensures Recalled(s, HandleExternal(ev, env))
  {
    match ev {
      case FromCaller(msg) =>
        BegunFacts(s);
        if msg == CallerDisconnect {
          FsmRetains(s.m.(manualDisconnect := true), StateMachine.Disconnect);
          hide Resets, SendToFsm, Inv;
          RetainedIsLeft(s.m.(manualDisconnect := true), OnCaller(s.m, msg, env));
        } else {
          AskingRetains(s.m, msg, env);
          hide OnCaller, Begun, Recalled;
          PlainEventRecalls(s, ev, env);
        }
      case FromWs(u) => HearingRecalls(s, u, env);
      case FromNetwork(onNetwork) => NoticingRecalls(s, onNetwork, env);
    }
  }

  lemma StepRecalls(s: System, step: Step)
    requires Begun(s) && Enabled(s, step) && !Asks(step, ShutDownManager)
    ensures MemoryOf(Apply(s, step).m) == Recalls(s, step, MemoryOf(s.m))
  {
    assert MemoryOf(Apply(s, step).m) == MemoryOf(ManagerAfter(s, step));
    match step
    case ConsumeInput => BegunFacts(s);
    case HandleUpdate(env) =>
      if s.pending[0].Emitted? {
        hide OnOutput, Recalls, Begun;
        OutputRecalls(s, env);
      } else {
        BegunFacts(s);
        hide Inv;
      }
    case HandleExternal(ev, env) =>
      hide OnExternal, Recalls, Begun;
      ExternalRecalls(s, ev, env);
  }

  // ----------------------------------------------------------------------- every run

  /** What a run leaves remembered. */
  function RecallsAlong(s: System, steps: seq<Step>, was: Memory): Memory
    requires Possible(s, steps)
    decreases |steps|
  {
    if steps == [] then was
    else RecallsAlong(Apply(s, steps[0]), steps[1..], Recalls(s, steps[0], was))
  }

  lemma ShutDownStops(s: System, step: Step)
    requires Inv(s) && Enabled(s, step) && Asks(step, ShutDownManager)
    ensures !Apply(s, step).m.running
  {
    ShutDownHolds(s, step.env);
  }

  lemma {:induction false} StoppedStays(s: System, steps: seq<Step>)
    requires Inv(s) && !s.m.running && Possible(s, steps)
    ensures Run(s, steps) == s
  {
  }

  lemma {:induction false} RunRecalls(s: System, steps: seq<Step>)
    requires Inv(s) && Possible(s, steps) && Run(s, steps).m.running
    ensures MemoryOf(Run(s, steps).m) == RecallsAlong(s, steps, MemoryOf(s.m))
    decreases |steps|
  {
    if steps != [] {
      var t := Apply(s, steps[0]);
      StepHolds(s, steps[0]);
      if !s.m.running {
        StoppedStays(s, steps);
      } else if Asks(steps[0], ShutDownManager) {
        ShutDownStops(s, steps[0]);
        StoppedStays(t, steps[1..]);
      } else {
        StepRecalls(s, steps[0]);
        hide Inv, Apply, Recalls, Enabled;
        RunRecalls(t, steps[1..]);
      }
    }
  }

  /** Main result: in every run, while the loop runs, the manager remembers exactly what
      the steps so far tell. */
  lemma MemoryIsTold(created: Disk, started: Disk, operational: bool, steps: seq<Step>)
    requires Possible(Start(created, started, operational), steps)
    requires Run(Start(created, started, operational), steps).m.running
    ensures var s := Start(created, started, operational);
      MemoryOf(Run(s, steps).m) == RecallsAlong(s, steps, Memory(false, false, false, 0, None, false))
  {
    var s := Start(created, started, operational);
    StartHolds(created, started, operational);
    assert MemoryOf(s.m) == Memory(false, false, false, 0, None, false);
    hide Inv, Start;
    RunRecalls(s, steps);
  }

  // ------------------------------------------------------- a disconnect asked for

  /** Some step asks for a disconnect, and none after it completes one. */
  predicate StillAsked(s: System, steps: seq<Step>)
    requires Possible(s, steps)
    decreases |steps|
  {
    steps != [] &&
    (|| StillAsked(Apply(s, steps[0]), steps[1..])
     || (Asks(steps[0], CallerDisconnect) && NoneCompletes(Apply(s, steps[0]), steps[1..])))
  }

  predicate NoneCompletes(s: System, steps: seq<Step>)
    requires Possible(s, steps)
    decreases |steps|
  {
    steps == [] || (!Completes(s, steps[0]) && NoneCompletes(Apply(s, steps[0]), steps[1..]))
  }

  lemma {:induction false} ManualAlong(s: System, steps: seq<Step>, was: Memory)
    requires Possible(s, steps)
    ensures RecallsAlong(s, steps, was).manual <==> StillAsked(s, steps) || (was.manual && NoneCompletes(s, steps))
    decreases |steps|
  {
    hide Apply, Enabled, Clears, Forgets;
    if steps != [] {
      ManualAlong(Apply(s, steps[0]), steps[1..], Recalls(s, steps[0], was));
    }
  }

  /** Main result: the manager takes a disconnect as asked for exactly if some step of the
      run asked for one and none since completed one, however long ago, and whether the
      machine took the request or refused it. */
  lemma DisconnectIsRemembered(created: Disk, started: Disk, operational: bool, steps: seq<Step>)
    requires Possible(Start(created, started, operational), steps)
    requires Run(Start(created, started, operational), steps).m.running
    ensures var s := Start(created, started, operational);
      Run(s, steps).m.manualDisconnect <==> StillAsked(s, steps)
  {
    hide Start, Recalls;
    MemoryIsTold(created, started, operational, steps);
    ManualAlong(Start(created, started, operational), steps, Memory(false, false, false, 0, None, false));
  }

  // --------------------------------------------------------- the last good connection

  predicate GoodHasUrl(m: Manager) {
    m.lastGood.Some? ==> m.lastGood.value.wsUrl.Some?
  }

  lemma StepKeepsGood(s: System, step: Step)
    requires Begun(s) && Enabled(s, step) && !Asks(step, ShutDownManager) && GoodHasUrl(s.m)
    ensures GoodHasUrl(Apply(s, step).m)
  {
    StepRecalls(s, step);
    if Handles(s, step, InitializeConnection) {
      StepHolds(s, step);
      assert Sound(Apply(s, step).m, Apply(s, step).accepted) by {
        GoodStaysRunning(s, step);
      }
      assert Apply(s, step).m.connection == ManagerAfter(s, step).connection;
    }
    hide Inv, ManagerAfter, Apply;
  }

  lemma GoodStaysRunning(s: System, step: Step)
    requires Begun(s) && Enabled(s, step) && Handles(s, step, InitializeConnection)
    ensures Apply(s, step).m.running
  {
    BegunFacts(s);
    OutputKeeps(s.m, InitializeConnection, step.env, s.accepted) by {
      assert Live(s);
    }
    hide OnOutput, Inv;
  }

  lemma {:induction false} RunKeepsGood(s: System, steps: seq<Step>)
    requires Inv(s) && Possible(s, steps) && Run(s, steps).m.running && GoodHasUrl(s.m)
    ensures GoodHasUrl(Run(s, steps).m)
    decreases |steps|
  {
    if steps != [] {
      var t := Apply(s, steps[0]);
      StepHolds(s, steps[0]);
      if !s.m.running {
        StoppedStays(s, steps);
      } else if Asks(steps[0], ShutDownManager) {
        ShutDownStops(s, steps[0]);
        StoppedStays(t, steps[1..]);
      } else {
        StepKeepsGood(s, steps[0]);
        hide Inv, Apply, Enabled;
        RunKeepsGood(t, steps[1..]);
      }
    }
  }

  lemma ReachableKeepsGood(s: System)
    requires Reachable(s) && s.m.running
    ensures GoodHasUrl(s.m)
  {
    hide Inv, Start, Run, Possible, GoodHasUrl;
    var created, started, operational, steps :|
      Possible(Start(created, started, operational), steps) && s == Run(Start(created, started, operational), steps);
    StartHolds(created, started, operational);
    assert GoodHasUrl(Start(created, started, operational).m) by { StartKeepsGood(created, started, operational); }
    RunKeepsGood(Start(created, started, operational), steps);
  }

  lemma StartKeepsGood(created: Disk, started: Disk, operational: bool)
    ensures GoodHasUrl(Start(created, started, operational).m)
  {
  }

  /** Main result: in every run, a request for the last good connection made at
      Disconnected is granted if any connection was initialized, dials that connection's
      URL, and sends nothing else. */
  lemma LastGoodIsDialled(s: System, env: Env)
    requires Reachable(s) && s.m.running && s.m.status == Disconnected && s.m.lastGood.Some?
    requires Enabled(s, HandleExternal(FromCaller(ConnectLastGoodConnection), env))
    ensures var step := HandleExternal(FromCaller(ConnectLastGoodConnection), env);
      && s.m.lastGood.value.wsUrl.Some?
      && ManagerAfter(s, step).outbox == [Connect(s.m.lastGood.value.wsUrl.value)]
      && Apply(s, step).accepted == s.m.lastGood && Apply(s, step).m.connection == s.m.lastGood
  {
    ReachableHolds(s);
    ReachableKeepsGood(s);
    BegunFacts(s);
    hide Inv, Reachable, Resets;
  }

  // ---------------------------------------------------------- a TV that comes back

  /** Main result: in every run, a TV seen to come back while the flow waits for it is
      dialled at once, and only then: one retry joins the history, and no wait. */
  lemma ReturnIsImmediate(s: System, env: Env)
    requires Reachable(s) && s.m.running && s.m.status == Disconnected && s.m.wsUrl.Some?
    requires s.m.reconnect.flow == WaitingForTvOnNetwork && !s.m.checker.wasOnNetwork && env.reconnectLoad
    requires Enabled(s, HandleExternal(FromNetwork(true), env))
    ensures var r := ManagerAfter(s, HandleExternal(FromNetwork(true), env));
      && s.accepted.Some? && s.accepted.value.wsUrl.Some?
      && r.outbox == [Connect(s.accepted.value.wsUrl.value)]
      && Waits(r.reconnect.marks) == Waits(s.m.reconnect.marks)
      && |RetriesIn(r.reconnect.marks)| == |RetriesIn(s.m.reconnect.marks)| + 1
  {
    ReachableHolds(s);
    BegunFacts(s);
    assert HasTarget(s.m.reconnect.flow, s.m.connection, s.accepted);
    hide Inv;
    var m1 := SetFlow(Noticed(s.m, true), Active);
    var c := s.m.connection.value;
    assert ManagerAfter(s, HandleExternal(FromNetwork(true), env)) == Retry(m1, c, true);
    var marks := s.m.reconnect.marks;
    var last := if c.settings.initialConnectRetries then Active else Inactive;
    assert Retry(m1, c, true).reconnect.marks == ((marks + [FlowSet(Active)]) + [Retried(None)]) + [FlowSet(last)];
    hide Retry, SetFlow;
    OneRetry(marks, last);
  }

  function RetryIn(mark: Mark): Option<Mark> {
    if mark.Retried? then Some(mark) else None
  }

  function RetriesIn(marks: seq<Mark>): seq<Mark> {
    Collect(RetryIn, marks)
  }

  lemma OneRetry(marks: seq<Mark>, last: Flow)
    ensures var all := ((marks + [FlowSet(Active)]) + [Retried(None)]) + [FlowSet(last)];
      Waits(all) == Waits(marks) && |RetriesIn(all)| == |RetriesIn(marks)| + 1
  {
    WaitsSnoc(marks, FlowSet(Active));
    WaitsSnoc(marks + [FlowSet(Active)], Retried(None));
    WaitsSnoc((marks + [FlowSet(Active)]) + [Retried(None)], FlowSet(last));
    CollectSnoc(RetryIn, marks, FlowSet(Active));
    CollectSnoc(RetryIn, marks + [FlowSet(Active)], Retried(None));
    CollectSnoc(RetryIn, (marks + [FlowSet(Active)]) + [Retried(None)], FlowSet(last));
  }

  // ------------------------------------------------------------------ the URL known

  /** The URL known after a reset, or a completed disconnect, is the one in the file if it
      can be read; if not, the one known before, while a flow is to reconnect, or none. */
  lemma UrlIsRead(m: Manager, disk: Disk)
    requires m.link == Open
    ensures ForceReset(m, disk).wsUrl ==
      match disk
      case Stored(url) => url
      case Unreadable => if m.reconnect.flow == Active || m.reconnect.flow == WaitingForTvOnNetwork then m.wsUrl else None
    ensures InitializeManagerState(AwaitHandler(m), disk).wsUrl == ForceReset(m, disk).wsUrl
  {
    hide Announce;
  }

  /** A manager begins with the URL in the file read last, as it is started. */
  lemma StartKnowsUrl(created: Disk, started: Disk, operational: bool)
    ensures Start(created, started, operational).m.wsUrl == if started.Stored? then started.wsUrl else None
  {
  }

  /** Main result: an attempt that finds no URL gives the target up: the flow is over, one
      reset is sent, nothing is dialled, and nothing is waited for. */
  lemma AttemptWithoutUrl(m: Manager, immediate: bool, env: Env)
    requires m.link == Open && m.wsUrl.None? && (env.reconnectLoad || !m.checker.operational)
    ensures var r := InitiateReconnect(m, immediate, env);
      && r.outbox == m.outbox + [Reset] && r.reconnect.flow == Inactive && r.connection.None?
      && r.ws.joinHandle.None? && r.sessions == 0 && !r.pairing
      && Waits(r.reconnect.marks) == Waits(m.reconnect.marks)
  {
    var m1 := SetFlow(SetFlow(m, Active), Inactive);
    ResetFacts(m1, env.resetDisk);
    WaitsSnoc(m.reconnect.marks, FlowSet(Active));
    WaitsSnoc(m.reconnect.marks + [FlowSet(Active)], FlowSet(Inactive));
    assert ForceReset(m1, env.resetDisk).reconnect == m1.reconnect;
    hide ForceReset, Waits;
  }
}
