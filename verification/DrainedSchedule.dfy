/** When a failed connect is retried, and how long each retry waits. */
module DrainedSchedule {
  import opened Wrappers
  import opened StateMachine
  import opened ManagerModel
  import opened ManagerFacts
  import opened ReconnectHistory
  import opened ReconnectWait
  import opened Async
  import opened Drained
  import opened DrainedInvariant
  import opened DrainedSteps
  import Backoff

  // ------------------------------------------------------------- one failed attempt

  /** The network as the retry preparation sees it. */
  predicate SeesTv(m: Manager, env: Env) {
    env.firstLoad || (!env.secondLoad && !m.checker.operational)
  }

  /** The network as the reconnect attempt sees it. */
  predicate MayReconnect(m: Manager, env: Env) {
    env.reconnectLoad || !m.checker.operational
  }

  /** A URL is known once the file has been read: the one it holds, if it can be read. */
  predicate KnowsUrl(known: Option<Url>, disk: Disk) {
    match disk
    case Unreadable => known.Some?
    case Stored(url) => url.Some?
  }

  /** A failure is to be retried: the first connects by one setting, later ones by the
      other. */
  predicate RetryLeft(m: Manager) {
    if m.sessions == 0 then InitialConnectRetries(m) else AutoReconnect(m)
  }

  function FailToConnect(env: Env): Step {
    HandleExternal(FromWs(WsConnectError), env)
  }

  /** The failure has been read, and its handler is all that is pending. */
  lemma FailureReported(b: Settled, lost: Env, read: Env)
    requires Inv(b) && b.fsm.Connecting? && CanStep(b, FailToConnect(lost)) && Plausible(b.m, read)
    ensures var m1 := OptionallyPrepareForReconnect(b.m, lost.firstLoad, lost.secondLoad);
      && After(b, FailToConnect(lost)) == Settled(m1, Disconnected, [NewState(Disconnected), Emitted(HandleConnectError)])
      && CanStep(After(b, FailToConnect(lost)), HandleUpdate(read))
      && After(After(b, FailToConnect(lost)), HandleUpdate(read)) ==
          Settled(m1.(status := Disconnected), Disconnected, [Emitted(HandleConnectError)])
      && !Dials(b, FailToConnect(lost)) && !Dials(After(b, FailToConnect(lost)), HandleUpdate(read))
  {
    hide Common, Grounded, InPhase;
    OpenAndEmpty(b);
    var m1 := OptionallyPrepareForReconnect(b.m, lost.firstLoad, lost.secondLoad);
    PreparedFrame(b.m, lost);
    hide OptionallyPrepareForReconnect;
    assert Reacted(b, FailToConnect(lost)).outbox == [Error];
    RunOne(b.fsm, Error);
    assert [] + Emit(b.fsm, Error) == [NewState(Disconnected), Emitted(HandleConnectError)];
    var t := After(b, FailToConnect(lost));
    assert t == Settled(m1, Disconnected, [NewState(Disconnected), Emitted(HandleConnectError)]);
    assert t.pend[1..] + RunUpdates(Disconnected, []) == [Emitted(HandleConnectError)];
  }

  lemma OpenAndEmpty(b: Settled)
    requires Inv(b)
    ensures b.m.link == Open && b.m.outbox == []
  {
  }

  lemma PreparedFrame(m: Manager, env: Env)
    ensures var r := OptionallyPrepareForReconnect(m, env.firstLoad, env.secondLoad);
      r == m.(reconnect := r.reconnect)
  {
  }

  /** What handling the failure sends, once the flow has been prepared. */
  lemma FailureHandled(m: Manager, env: Env)
    requires Common(m) && m.outbox == [] && m.status == Disconnected && m.connection.Some?
    ensures HasConnect(OnOutput(m, HandleConnectError, env).outbox) <==>
      && m.reconnect.flow == Active && RetryLeft(m)
      && MayReconnect(m, env)
      && KnowsUrl(m.wsUrl, env.answer.disk)
  {
    hide ForceReset, InitiateReconnect, HasConnect;
    var r := ForceReset(m, env.answer.disk);
    AfterReset(m, env.answer.disk);
    ResetIsNoConnect();
    if ShouldRetryConnectFailure(r) && r.reconnect.flow == Active {
      ReconnectDials(r, env);
    }
  }

  lemma ResetIsNoConnect()
    ensures !HasConnect([Reset])
  {
  }

  lemma AfterReset(m: Manager, disk: Disk)
    requires Common(m) && m.outbox == []
    ensures var r := ForceReset(m, disk);
      && r.outbox == [Reset] && r.status == m.status && r.link == Open
      && r.checker.operational == m.checker.operational
      && (m.reconnect.flow == Active ==>
            && r.reconnect == m.reconnect && r.connection == m.connection && r.sessions == m.sessions
            && r.wsUrl == ImportedUrl(m.wsUrl, disk))
      && (m.reconnect.flow != Active ==> r.reconnect.flow != Active)
  {
  }

  /** What an attempt sends, in each of its three cases. */
  lemma AttemptSends(m: Manager, env: Env)
    requires m.status == Disconnected && m.link == Open && m.connection.Some? && m.connection.value.wsUrl.Some?
    ensures InitiateReconnect(m, false, env).outbox == m.outbox +
      if !MayReconnect(m, env) then []
      else if m.wsUrl.None? then [Reset]
      else [Connect(m.connection.value.wsUrl.value)]
  {
    hide ForceReset, Retry;
    if !MayReconnect(m, env) {
      assert m.outbox + [] == m.outbox;
    } else if m.wsUrl.None? {
      ResetSendsReset(SetFlow(SetFlow(m, Active), Inactive), env.resetDisk);
    } else {
      RetryEffect(SetFlow(m, Active), m.connection.value);
    }
  }

  predicate HasConnect(ins: seq<Input>) {
    exists i :: i in ins && i.Connect?
  }

  lemma ReconnectDials(m: Manager, env: Env)
    requires (m.outbox == [] || m.outbox == [Reset]) && m.status == Disconnected && m.link == Open
    requires m.connection.Some? && m.connection.value.wsUrl.Some?
    ensures HasConnect(InitiateReconnect(m, false, env).outbox) <==> MayReconnect(m, env) && m.wsUrl.Some?
  {
    AttemptSends(m, env);
    hide InitiateReconnect, MayReconnect;
    var out := InitiateReconnect(m, false, env).outbox;
    if MayReconnect(m, env) && m.wsUrl.Some? {
      assert out[|out| - 1] in out;
    }
  }

  /** A retry that finds the manager Disconnected: waited, counted, announced and
      sent. */
  lemma RetryEffect(m: Manager, c: Connection)
    requires m.status == Disconnected && m.link == Open && c.wsUrl.Some?
    ensures var r := Retry(m, c, false);
      && r.outbox == m.outbox + [Connect(c.wsUrl.value)]
      && r.outbox[|m.outbox|] in r.outbox
      && r.connection == Some(c) && r.wsUrl == c.wsUrl && r.sessions == m.sessions
      && r.manualDisconnect == m.manualDisconnect
      && r.reconnect == Announce(CountRetry(m.reconnect, false), if c.settings.initialConnectRetries then Active else Inactive)
  {
  }

  lemma ResetSendsReset(m: Manager, disk: Disk)
    requires m.link == Open
    ensures ForceReset(m, disk).outbox == m.outbox + [Reset]
  {
  }

  /** Main result: a connect error handled while Connecting leads to a new Connect if
      and only if the flow calls for a retry, the attempt is not prevented, and a URL is
      there after the import. After a manual disconnect the flow is left as it was, so
      an Active one is retried on either setting; otherwise it takes auto_reconnect,
      a flow not cancelled, the TV seen on the network (or a checker that cannot
      tell), and either initial_connect_retries or an earlier session:
      initial_connect_retries alone retries nothing. */
  lemma RetryDecision(b: Settled, lost: Env, read: Env, handled: Env)
    requires Inv(b) && b.fsm.Connecting?
    requires CanStep(b, FailToConnect(lost)) && Plausible(b.m, read) && Plausible(b.m, handled)
    ensures
      var t := After(b, FailToConnect(lost));
      && CanStep(t, HandleUpdate(read)) && CanStep(After(t, HandleUpdate(read)), HandleUpdate(handled))
      && !Dials(b, FailToConnect(lost)) && !Dials(t, HandleUpdate(read))
      && (Dials(After(t, HandleUpdate(read)), HandleUpdate(handled)) <==>
            && (if b.m.manualDisconnect
                then b.m.reconnect.flow == Active && RetryLeft(b.m)
                else && b.m.reconnect.flow != Cancelled && AutoReconnect(b.m) && SeesTv(b.m, lost)
                     && (InitialConnectRetries(b.m) || b.m.sessions > 0))
            && MayReconnect(b.m, handled)
            && KnowsUrl(b.m.wsUrl, handled.answer.disk))
  {
    hide After, Dials, OnOutput;
    FailureReported(b, lost, read);
    var m1 := OptionallyPrepareForReconnect(b.m, lost.firstLoad, lost.secondLoad).(status := Disconnected);
    FailureHandled(m1, handled);
    DialsIsSending(Settled(m1, Disconnected, [Emitted(HandleConnectError)]), handled);
  }

  lemma DialsIsSending(b: Settled, env: Env)
    requires b.m.running && Plausible(b.m, env) && b.pend == [Emitted(HandleConnectError)]
    ensures CanStep(b, HandleUpdate(env))
    ensures Dials(b, HandleUpdate(env)) <==> HasConnect(OnOutput(b.m, HandleConnectError, env).outbox)
  {
    hide OnOutput;
  }

  // ---------------------------------------------------------- many failed attempts

  /** The delays of n retries, the first one for the given count. */
  function DelaysFrom(count: nat, n: nat): seq<nat> {
    if n == 0 then [] else DelaysFrom(count, n - 1) + [Backoff.Delay(count + n - 1)]
  }

  function FirstDelays(n: nat): seq<nat> {
    if n == 0 then [] else FirstDelays(n - 1) + [Backoff.Delay(0)]
  }

  predicate IsFailure(step: Step) {
    step.HandleExternal? && step.event == FromWs(WsConnectError)
  }

  /** The TV is there, connecting to it fails, and the file never lacks a URL. */
  predicate FailsToConnect(m: Manager, step: Step) {
    match step
    case ConsumeInput => false
    case HandleExternal(ev, env) => ev == FromWs(WsIdle) || (ev == FromWs(WsConnectError) && SeesTv(m, env))
    case HandleUpdate(env) => MayReconnect(m, env) && env.answer.disk != Stored(None)
  }

  predicate KeepsFailing(b: Settled, steps: seq<Step>)
    requires CanRun(b, steps)
    decreases |steps|
  {
    steps == [] || (FailsToConnect(b.m, steps[0]) && KeepsFailing(After(b, steps[0]), steps[1..]))
  }

  function Failures(steps: seq<Step>): nat {
    if steps == [] then 0 else (if IsFailure(steps[0]) then 1 else 0) + Failures(steps[1..])
  }

  /** The waits after a number of reported failures: the last one is still due
      while its handler is pending. */
  predicate Scheduled(b: Settled, waits: seq<nat>, count: nat, n: nat) {
    && Inv(b) && AutoReconnect(b.m) && InitialConnectRetries(b.m)
    && b.m.reconnect.flow == Active && b.m.wsUrl.Some?
    && match Tail(b.pend)
       case None => b.fsm.Connecting? && Elapsed(b.m.reconnect, waits, count, n)
       case Some(ConnectToTv(_)) => Elapsed(b.m.reconnect, waits, count, n)
       case Some(HandleConnectError) => n > 0 && Elapsed(b.m.reconnect, waits, count, n - 1)
       case Some(_) => false
  }

  predicate Elapsed(r: Reconnect, waits: seq<nat>, count: nat, n: nat) {
    r.attempts == count + n && Waits(r.marks) == waits + DelaysFrom(count, n)
  }

  /** The same with no retries of initial connects: the flow is dropped at each
      retry, and the next failure counts from nothing again. */
  predicate ScheduledFlat(b: Settled, waits: seq<nat>, n: nat) {
    && Inv(b) && AutoReconnect(b.m) && !InitialConnectRetries(b.m)
    && b.m.sessions > 0 && !b.m.manualDisconnect && b.m.wsUrl.Some?
    && match Tail(b.pend)
       case None => b.fsm.Connecting? && Waits(b.m.reconnect.marks) == waits + FirstDelays(n)
       case Some(ConnectToTv(_)) => Waits(b.m.reconnect.marks) == waits + FirstDelays(n)
       case Some(HandleConnectError) =>
         n > 0 && b.m.reconnect.flow == Active && b.m.reconnect.attempts == 0
         && Waits(b.m.reconnect.marks) == waits + FirstDelays(n - 1)
       case Some(_) => false
  }

  lemma RetryWaits(r: Reconnect)
    ensures Waits(CountRetry(r, false).marks) == Waits(r.marks) + [Backoff.Delay(r.attempts)]
  {
    WaitsSnoc(r.marks, Retried(Some(r.attempts)));
  }

  /** Handling the failure retries: reset, wait, count, and connect again. */
  lemma FailureRetried(m: Manager, env: Env)
    requires Common(m) && m.outbox == [] && m.status == Disconnected
    requires m.reconnect.flow == Active && AutoReconnect(m) && (InitialConnectRetries(m) || m.sessions > 0)
    requires MayReconnect(m, env) && env.answer.disk != Stored(None) && m.wsUrl.Some?
    ensures var r := OnOutput(m, HandleConnectError, env);
      && r.outbox == [Reset, Connect(m.connection.value.wsUrl.value)]
      && r.connection == m.connection && r.wsUrl.Some? && r.sessions == m.sessions
      && r.manualDisconnect == m.manualDisconnect
      && r.reconnect.flow == (if InitialConnectRetries(m) then Active else Inactive)
      && r.reconnect.attempts == m.reconnect.attempts + 1
      && Waits(r.reconnect.marks) == Waits(m.reconnect.marks) + [Backoff.Delay(m.reconnect.attempts)]
  {
    hide ForceReset, Retry, Waits, Announce, CountRetry;
    var m1 := ForceReset(m, env.answer.disk);
    AfterReset(m, env.answer.disk);
    ResetKeepsFlags(m, env.answer.disk);
    var m2 := SetFlow(m1, Active);
    RetryEffect(m2, m.connection.value);
    AnnounceWaits(m1.reconnect, Active);
    RetryWaits(m2.reconnect);
    Counted(m1.reconnect, m2.reconnect);
    AnnounceWaits(CountRetry(m2.reconnect, false), if InitialConnectRetries(m) then Active else Inactive);
  }

  /** Staying Active keeps the count, and the retry adds one. */
  lemma Counted(before: Reconnect, active: Reconnect)
    requires before.flow == Active && active == Announce(before, Active)
    ensures active.attempts == before.attempts
    ensures CountRetry(active, false).attempts == active.attempts + 1 && CountRetry(active, false).flow == Active
    ensures forall f :: Announce(CountRetry(active, false), f).attempts == active.attempts + 1
                     && Announce(CountRetry(active, false), f).flow == f
  {
  }

  lemma RetryPending(m: Manager, fsm: State, url: Url)
    requires m.outbox == [Reset, Connect(url)] && Real(fsm)
    ensures Deliver(m, fsm, []).fsm == Connecting(url)
    ensures Tail(Deliver(m, fsm, []).pend) == Some(ConnectToTv(url))
    ensures Deliver(m, fsm, []).m == m.(outbox := [])
  {
    assert m.outbox == [Reset] + [Connect(url)];
    RunAppend(fsm, [Reset], [Connect(url)]);
    RunOne(fsm, Reset);
    RunOne(Disconnected, Connect(url));
    assert Deliver(m, fsm, []).pend == [NewState(Disconnected), NewState(Connecting(url)), Emitted(ConnectToTv(url))];
  }

  /** Reading a failure keeps an Active flow's count, and starts one from nothing. */
  lemma PreparedCount(m: Manager, env: Env)
    requires AutoReconnect(m) && SeesTv(m, env) && m.reconnect.flow != Cancelled
    requires m.reconnect.flow == Active || !m.manualDisconnect
    ensures var r := OptionallyPrepareForReconnect(m, env.firstLoad, env.secondLoad).reconnect;
      && r.flow == Active
      && r.attempts == (if m.reconnect.flow == Active then m.reconnect.attempts else 0)
      && Waits(r.marks) == Waits(m.reconnect.marks)
  {
    hide Waits;
    AnnounceWaits(m.reconnect, Active);
  }

  lemma ReportStep(b: Settled, env: Env)
    requires Inv(b) && b.fsm.Connecting? && CanStep(b, FailToConnect(env))
    ensures var t := After(b, FailToConnect(env));
      && t.m == OptionallyPrepareForReconnect(b.m, env.firstLoad, env.secondLoad)
      && Tail(t.pend) == Some(HandleConnectError)
  {
    hide After;
    FailureReported(b, env, env);
  }

  /** The step that handles an update which is no failure leaves the flow alone. */
  lemma OtherUpdate(b: Settled, env: Env)
    requires Inv(b) && CanStep(b, HandleUpdate(env))
    requires Tail(b.pend) == None || (Tail(b.pend).value.ConnectToTv?) || !b.pend[0].Emitted?
    ensures var t := After(b, HandleUpdate(env));
      && t.fsm == b.fsm
      && t.m.reconnect == b.m.reconnect && t.m.connection == b.m.connection && t.m.sessions == b.m.sessions
      && t.m.wsUrl == b.m.wsUrl && t.m.manualDisconnect == b.m.manualDisconnect
      && (Tail(t.pend) == Tail(b.pend) || (b.pend[0].Emitted? && Tail(t.pend) == None))
      && (b.pend[0].Emitted? ==> t.pend == [] && Tail(b.pend) == Some(b.pend[0].output))
  {
    hide Awaiting, Grounded, InPhase, Latest;
    var u := b.pend[0];
    OpenAndEmpty(b);
    assert b.pend[1..] + RunUpdates(b.fsm, []) == b.pend[1..];
    if u.Emitted? {
      LoneOutput(b.m.status, b.pend);
    } else {
      SkippedUpdate(b.m.status, b.pend);
    }
  }

  lemma IdleChangesNothing(b: Settled, env: Env)
    requires Inv(b) && CanStep(b, HandleExternal(FromWs(WsIdle), env))
    ensures After(b, HandleExternal(FromWs(WsIdle), env)) == b
  {
    OpenAndEmpty(b);
    assert [] + RunUpdates(b.fsm, []) == [];
  }

  lemma ScheduleReport(b: Settled, env: Env, waits: seq<nat>, count: nat, n: nat)
    requires Scheduled(b, waits, count, n) && CanStep(b, FailToConnect(env)) && FailsToConnect(b.m, FailToConnect(env))
    ensures Scheduled(After(b, FailToConnect(env)), waits, count, n + 1)
  {
    hide After, Inv, Waits, DelaysFrom, Tail, CanStep, OptionallyPrepareForReconnect;
    StepSettles(b, FailToConnect(env));
    NothingPending(b, FailToConnect(env));
    PreparedCount(b.m, env);
    ReportStep(b, env);
    PreparedFrame(b.m, env);
  }

  lemma ScheduleRetry(b: Settled, env: Env, waits: seq<nat>, count: nat, n: nat)
    requires Scheduled(b, waits, count, n) && CanStep(b, HandleUpdate(env)) && FailsToConnect(b.m, HandleUpdate(env))
    requires b.pend[0] == Emitted(HandleConnectError)
    ensures Scheduled(After(b, HandleUpdate(env)), waits, count, n)
  {
    hide After, OnOutput, Inv, Waits, DelaysFrom, Tail, CanStep;
    StepSettles(b, HandleUpdate(env));
    SomethingPending(b, env);
    HandlingFailure(b);
    FailureRetried(b.m, env);
    RetryStep(b, env);
    DelaysGrow(waits, count, n);
  }

  lemma ScheduleOther(b: Settled, env: Env, waits: seq<nat>, count: nat, n: nat)
    requires Scheduled(b, waits, count, n) && CanStep(b, HandleUpdate(env))
    requires b.pend[0] != Emitted(HandleConnectError)
    ensures Scheduled(After(b, HandleUpdate(env)), waits, count, n)
  {
    hide After, Inv, Elapsed, Tail, CanStep;
    StepSettles(b, HandleUpdate(env));
    SomethingPending(b, env);
    OnlyConnects(b);
    OtherUpdate(b, env);
    if Tail(b.pend).Some? && Tail(b.pend).value.ConnectToTv? {
      AwaitedMachine(b);
    }
  }

  lemma ScheduleStep(b: Settled, step: Step, waits: seq<nat>, count: nat, n: nat)
    requires Scheduled(b, waits, count, n) && CanStep(b, step) && FailsToConnect(b.m, step)
    ensures Scheduled(After(b, step), waits, count, if IsFailure(step) then n + 1 else n)
  {
    assert Inv(b);
    hide After, Scheduled, Inv;
    if IsFailure(step) {
      ScheduleReport(b, step.env, waits, count, n);
    } else if step.HandleExternal? {
      IdleChangesNothing(b, step.env);
    } else if b.pend[0] == Emitted(HandleConnectError) {
      ScheduleRetry(b, step.env, waits, count, n);
    } else {
      ScheduleOther(b, step.env, waits, count, n);
    }
  }

  lemma FlatReport(b: Settled, env: Env, waits: seq<nat>, n: nat)
    requires ScheduledFlat(b, waits, n) && CanStep(b, FailToConnect(env)) && FailsToConnect(b.m, FailToConnect(env))
    ensures ScheduledFlat(After(b, FailToConnect(env)), waits, n + 1)
  {
    hide After, Inv, Waits, FirstDelays, Tail, CanStep, OptionallyPrepareForReconnect;
    StepSettles(b, FailToConnect(env));
    NothingPending(b, FailToConnect(env));
    FlowDropped(b);
    PreparedCount(b.m, env);
    ReportStep(b, env);
    PreparedFrame(b.m, env);
  }

  /** While connecting without initial retries the flow is not Active. */
  lemma FlowDropped(b: Settled)
    requires Inv(b) && b.pend == [] && b.fsm.Connecting? && !InitialConnectRetries(b.m)
    ensures b.m.reconnect.flow == Inactive
  {
  }

  lemma FlatRetry(b: Settled, env: Env, waits: seq<nat>, n: nat)
    requires ScheduledFlat(b, waits, n) && CanStep(b, HandleUpdate(env)) && FailsToConnect(b.m, HandleUpdate(env))
    requires b.pend[0] == Emitted(HandleConnectError)
    ensures ScheduledFlat(After(b, HandleUpdate(env)), waits, n)
  {
    hide After, OnOutput, Inv, Waits, Tail, CanStep;
    StepSettles(b, HandleUpdate(env));
    SomethingPending(b, env);
    HandlingFailure(b);
    FailureRetried(b.m, env);
    RetryStep(b, env);
    assert waits + FirstDelays(n) == (waits + FirstDelays(n - 1)) + [Backoff.Delay(0)] by {
      hide Backoff.Delay;
    }
  }

  lemma FlatOther(b: Settled, env: Env, waits: seq<nat>, n: nat)
    requires ScheduledFlat(b, waits, n) && CanStep(b, HandleUpdate(env))
    requires b.pend[0] != Emitted(HandleConnectError)
    ensures ScheduledFlat(After(b, HandleUpdate(env)), waits, n)
  {
    hide After, Inv, Tail, CanStep, Waits, FirstDelays;
    StepSettles(b, HandleUpdate(env));
    SomethingPending(b, env);
    OnlyConnects(b);
    OtherUpdate(b, env);
    if Tail(b.pend).Some? && Tail(b.pend).value.ConnectToTv? {
      AwaitedMachine(b);
    }
  }

  lemma FlatStep(b: Settled, step: Step, waits: seq<nat>, n: nat)
    requires ScheduledFlat(b, waits, n) && CanStep(b, step) && FailsToConnect(b.m, step)
    ensures ScheduledFlat(After(b, step), waits, if IsFailure(step) then n + 1 else n)
  {
    assert Inv(b);
    hide After, ScheduledFlat, Inv;
    if IsFailure(step) {
      FlatReport(b, step.env, waits, n);
    } else if step.HandleExternal? {
      IdleChangesNothing(b, step.env);
    } else if b.pend[0] == Emitted(HandleConnectError) {
      FlatRetry(b, step.env, waits, n);
    } else {
      FlatOther(b, step.env, waits, n);
    }
  }

  lemma {:induction false} ScheduleRun(b: Settled, steps: seq<Step>, waits: seq<nat>, count: nat, n: nat)
    requires Scheduled(b, waits, count, n) && CanRun(b, steps) && KeepsFailing(b, steps)
    ensures Scheduled(RunFrom(b, steps), waits, count, n + Failures(steps))
    decreases |steps|
  {
    hide Scheduled, After, FailsToConnect, IsFailure;
    if steps != [] {
      ScheduleStep(b, steps[0], waits, count, n);
      ScheduleRun(After(b, steps[0]), steps[1..], waits, count, if IsFailure(steps[0]) then n + 1 else n);
    }
  }

  lemma {:induction false} FlatRun(b: Settled, steps: seq<Step>, waits: seq<nat>, n: nat)
    requires ScheduledFlat(b, waits, n) && CanRun(b, steps) && KeepsFailing(b, steps)
    ensures ScheduledFlat(RunFrom(b, steps), waits, n + Failures(steps))
    decreases |steps|
  {
    hide ScheduledFlat, After, FailsToConnect, IsFailure;
    if steps != [] {
      FlatStep(b, steps[0], waits, n);
      FlatRun(After(b, steps[0]), steps[1..], waits, if IsFailure(steps[0]) then n + 1 else n);
    }
  }

  /** Main result: from Connecting with an Active flow and both settings on, a run of
      n connect errors in which the TV stays in sight waits exactly the delays for
      k, k + 1, ..., k + n - 1, and is Connecting again with the count at k + n. */
  lemma BackoffSchedule(b: Settled, steps: seq<Step>)
    requires Inv(b) && b.pend == [] && b.fsm.Connecting? && b.m.reconnect.flow == Active && b.m.wsUrl.Some?
    requires AutoReconnect(b.m) && InitialConnectRetries(b.m)
    requires CanRun(b, steps) && KeepsFailing(b, steps) && RunFrom(b, steps).pend == []
    ensures var e := RunFrom(b, steps);
      && Waits(e.m.reconnect.marks) == Waits(b.m.reconnect.marks) + DelaysFrom(b.m.reconnect.attempts, Failures(steps))
      && e.m.reconnect.attempts == b.m.reconnect.attempts + Failures(steps)
      && e.m.reconnect.flow == Active && e.fsm.Connecting?
  {
    hide Inv, Waits, KeepsFailing, CanRun, RunFrom;
    var waits := Waits(b.m.reconnect.marks);
    assert waits + DelaysFrom(b.m.reconnect.attempts, 0) == waits;
    ScheduleRun(b, steps, waits, b.m.reconnect.attempts, 0);
  }

  /** Main result: with initial_connect_retries off and a session already had, every
      one of the n waits is the first delay, 250 ms: the delay never grows. */
  lemma BackoffNeverGrowsWithoutInitialRetries(b: Settled, steps: seq<Step>)
    requires Inv(b) && b.pend == [] && b.fsm.Connecting? && b.m.wsUrl.Some?
    requires AutoReconnect(b.m) && !InitialConnectRetries(b.m) && b.m.sessions > 0 && !b.m.manualDisconnect
    requires CanRun(b, steps) && KeepsFailing(b, steps) && RunFrom(b, steps).pend == []
    ensures var e := RunFrom(b, steps);
      && Waits(e.m.reconnect.marks) == Waits(b.m.reconnect.marks) + FirstDelays(Failures(steps))
      && e.m.reconnect.flow == Inactive && e.fsm.Connecting?
    ensures |FirstDelays(Failures(steps))| == Failures(steps)
    ensures forall w | w in FirstDelays(Failures(steps)) :: w == 250
  {
    hide Inv, Waits, KeepsFailing, CanRun, RunFrom;
    var waits := Waits(b.m.reconnect.marks);
    assert waits + FirstDelays(0) == waits;
    FlatRun(b, steps, waits, 0);
    FlowDropped(RunFrom(b, steps));
    FirstDelaysAre250(Failures(steps));
  }

  lemma {:induction false} FirstDelaysAre250(n: nat)
    ensures |FirstDelays(n)| == n
    ensures forall w | w in FirstDelays(n) :: w == 250
  {
    hide Backoff.Delay;
    if n > 0 {
      FirstDelaysAre250(n - 1);
      Backoff.FirstDelays();
    }
  }

  lemma NothingPending(b: Settled, step: Step)
    requires CanStep(b, step) && step.HandleExternal?
    ensures b.pend == [] && Tail(b.pend) == None
  {
  }

  lemma SomethingPending(b: Settled, env: Env)
    requires CanStep(b, HandleUpdate(env))
    ensures b.pend != []
  {
  }

  lemma HandlingFailure(b: Settled)
    requires Inv(b) && b.pend != [] && b.pend[0] == Emitted(HandleConnectError)
    ensures Common(b.m) && b.m.outbox == [] && b.m.status == Disconnected && b.fsm == Disconnected
    ensures Tail(b.pend) == Some(HandleConnectError) && b.pend == [Emitted(HandleConnectError)]
  {
    LoneOutput(b.m.status, b.pend);
  }

  lemma RetryStep(b: Settled, env: Env)
    requires CanStep(b, HandleUpdate(env)) && b.pend == [Emitted(HandleConnectError)] && b.fsm == Disconnected
    requires exists url :: OnOutput(b.m, HandleConnectError, env).outbox == [Reset, Connect(url)]
    ensures var t := After(b, HandleUpdate(env));
      && t.fsm.Connecting? && Tail(t.pend).Some? && Tail(t.pend).value.ConnectToTv?
      && t.m == OnOutput(b.m, HandleConnectError, env).(outbox := [])
  {
    hide OnOutput;
    var url :| OnOutput(b.m, HandleConnectError, env).outbox == [Reset, Connect(url)];
    RetryPending(OnOutput(b.m, HandleConnectError, env), Disconnected, url);
    assert b.pend[1..] == [];
  }

  /** Without a failure to handle, a scheduled system has at most a handler to
      start. */
  lemma OnlyConnects(b: Settled)
    requires Inv(b) && b.pend != [] && b.pend[0] != Emitted(HandleConnectError)
    requires Tail(b.pend) == None || Tail(b.pend).value.ConnectToTv? || Tail(b.pend) == Some(HandleConnectError)
    ensures Tail(b.pend) == None || Tail(b.pend).value.ConnectToTv? || !b.pend[0].Emitted?
  {
    if b.pend[0].Emitted? {
      LoneOutput(b.m.status, b.pend);
    }
  }

  lemma AwaitedMachine(b: Settled)
    requires Inv(b) && Tail(b.pend).Some? && Tail(b.pend).value.ConnectToTv?
    ensures b.fsm.Connecting?
  {
  }

  lemma DelaysGrow(waits: seq<nat>, count: nat, n: nat)
    requires n > 0
    ensures waits + DelaysFrom(count, n) == (waits + DelaysFrom(count, n - 1)) + [Backoff.Delay(count + n - 1)]
  {
    hide Backoff.Delay;
  }
}
