/** What every run hands to WebSocket handlers, whatever the interleaving. */
module AsyncLog {
  import opened Wrappers
  import opened StateMachine
  import opened StateMachineProperties
  import opened ManagerModel
  import opened HandlerLog
  import opened Async
  import opened AsyncProperties

  // ------------------------------------------------------------ what a step is to hand

  /** The messages other than shutdowns that a step is to hand over: those of the output
      it handles, or the test the caller asks for while initialized. */
  function ToldBy(s: System, step: Step): seq<WsMessage>
    requires Enabled(s, step)
  {
    match step
    case ConsumeInput => []
    case HandleUpdate(_) => if s.pending[0].Emitted? then ToldOn(s.pending[0].output) else []
    case HandleExternal(ev, _) => if ev == FromCaller(CallerTestConnection) && s.m.initialized then [TestConnection] else []
  }

  predicate TellsDisconnect(s: System, step: Step)
    requires Enabled(s, step)
  {
    match step
    case ConsumeInput => false
    case HandleUpdate(_) => s.pending[0] == Emitted(DisconnectFromTv)
    case HandleExternal(ev, _) => ev == FromCaller(ShutDownManager)
  }

  /** The shutdowns: one for each reset sent to the machine, one for a disconnect told to
      a handler still to be awaited, and at the end of the loop one more if that is
      refused. */
  function ShutDownsBy(s: System, step: Step): nat
    requires Enabled(s, step)
  {
    Resets(ManagerAfter(s, step).outbox)
    + (if TellsDisconnect(s, step) && s.m.ws.joinHandle.Some? then 1 else 0)
    + (if step.HandleExternal? && step.event == FromCaller(ShutDownManager) && s.m.ws.joinHandle.Some? &&
          !step.env.answer.sent then 1 else 0)
  }

  function ToldAlong(s: System, steps: seq<Step>): seq<Handed>
    requires Possible(s, steps)
    decreases |steps|
  {
    if steps == [] then []
    else Addressed(s.m.ws.sender, ToldBy(s, steps[0])) + ToldAlong(Apply(s, steps[0]), steps[1..])
  }

  function ShutDownsAlong(s: System, steps: seq<Step>): seq<Handed>
    requires Possible(s, steps)
    decreases |steps|
  {
    if steps == [] then []
    else Addressed(s.m.ws.sender, Times(ShutDownsBy(s, steps[0]))) + ShutDownsAlong(Apply(s, steps[0]), steps[1..])
  }

  // ---------------------------------------------------------------- what it does hand

  predicate LogGains(s: System, step: Step)
    requires Enabled(s, step)
  {
    var r := ManagerAfter(s, step);
    && Tellings(r.ws.log) == Tellings(s.m.ws.log) + Addressed(s.m.ws.sender, ToldBy(s, step))
    && ShutDowns(r.ws.log) == ShutDowns(s.m.ws.log) + Addressed(s.m.ws.sender, Times(ShutDownsBy(s, step)))
  }

  lemma {:induction false} NoSender(messages: seq<WsMessage>)
    ensures Addressed(None, messages) == []
  {
  }

  /** What one handler hands over, for a manager that had sent nothing yet; without a
      sender any number of shutdowns is none. */
  lemma HandedGains(m: Manager, r: Manager, told: seq<WsMessage>, more: nat, all: nat)
    requires HandsOver(m, r, told, more) && m.outbox == []
    requires all == Resets(r.outbox) + more || m.ws.sender.None?
    ensures Tellings(r.ws.log) == Tellings(m.ws.log) + Addressed(m.ws.sender, told)
    ensures ShutDowns(r.ws.log) == ShutDowns(m.ws.log) + Addressed(m.ws.sender, Times(all))
  {
    assert Resets([]) == 0;
    if m.ws.sender.None? {
      NoSender(Times(all));
      NoSender(Times(Resets(r.outbox) + more));
    }
  }

  lemma OutputGains(s: System, env: Env)
    requires Inv(s) && Enabled(s, HandleUpdate(env)) && s.pending[0].Emitted? && !s.pending[0].output.ConnectToTv?
    ensures LogGains(s, HandleUpdate(env))
  {
    var o := s.pending[0].output;
    var r := OnOutput(s.m, o, env);
    RunningIsOpen(s);
    OutputHands(s.m, o, env);
    hide HandsOver, Tellings, ShutDowns, Addressed, Times, Inv, OnOutput, ToldOn, Resets;
    HandedGains(s.m, r, ToldOn(o), if o.DisconnectFromTv? && ShutsDown(s.m) then 1 else 0,
                ShutDownsBy(s, HandleUpdate(env)));
  }

  lemma UpdateGains(s: System, env: Env)
    requires Inv(s) && Enabled(s, HandleUpdate(env))
    ensures LogGains(s, HandleUpdate(env))
  {
    var u := s.pending[0];
    if u.Emitted? && !u.output.ConnectToTv? {
      OutputGains(s, env);
    } else {
      RunningIsOpen(s);
      StartsSilently(s.m, u, env);
      hide HandsOver, Tellings, ShutDowns, Addressed, Times, Inv;
    }
  }

  lemma StartsSilently(m: Manager, u: Update, env: Env)
    requires m.outbox == [] && (u.Emitted? ==> u.output.ConnectToTv?)
    ensures var r := OnUpdate(m, u, env);
      && r.outbox == [] && Resets([]) == 0
      && Tellings(r.ws.log) == Tellings(m.ws.log) + Addressed(m.ws.sender, [])
      && ShutDowns(r.ws.log) == ShutDowns(m.ws.log) + Addressed(m.ws.sender, Times(0))
      && (if u.Emitted? then r.ws.started == m.ws.started + [u.output.url] && r.ws.sender == Some(|m.ws.started|)
          else r.ws == m.ws)
  {
  }

  lemma RunningIsOpen(s: System)
    requires Inv(s)
    ensures s.m.outbox == [] && (s.m.running ==> s.m.link == Open)
  {
  }

  lemma ExternalGains(s: System, ev: External, env: Env)
    requires Inv(s) && Enabled(s, HandleExternal(ev, env)) && ev != FromCaller(ShutDownManager)
    ensures LogGains(s, HandleExternal(ev, env))
  {
    var r := OnExternal(s.m, ev, env);
    var told := ToldBy(s, HandleExternal(ev, env));
    RunningIsOpen(s);
    ExternalHands(s.m, ev, env);
    hide HandsOver, Tellings, ShutDowns, Addressed, Times, Inv, OnExternal, Resets;
    HandedGains(s.m, r, told, 0, Resets(r.outbox));
  }

  lemma EndingGains(s: System, env: Env)
    requires Inv(s) && Enabled(s, HandleExternal(FromCaller(ShutDownManager), env))
    ensures LogGains(s, HandleExternal(FromCaller(ShutDownManager), env))
  {
    RunningIsOpen(s);
    EndingHands(s.m, env);
    assert Resets([]) == 0 && Addressed(s.m.ws.sender, []) == [];
    assert Tellings(s.m.ws.log) + [] == Tellings(s.m.ws.log);
    if s.m.ws.sender.None? {
      NoSender(Times(0));
      NoSender(Times(1));
      NoSender(Times(2));
    }
    hide Tellings, ShutDowns, Addressed, Times, Inv, OnCaller, Resets;
  }

  lemma StepGains(s: System, step: Step)
    requires Inv(s) && Enabled(s, step)
    ensures LogGains(s, step) && Apply(s, step).m.ws == ManagerAfter(s, step).ws
  {
    match step
    case ConsumeInput =>
      RunningIsOpen(s);
      hide Inv;
      assert Resets([]) == 0 && Times(0) == [] && Addressed(s.m.ws.sender, []) == [];
      assert Tellings(s.m.ws.log) + [] == Tellings(s.m.ws.log) && ShutDowns(s.m.ws.log) + [] == ShutDowns(s.m.ws.log);
    case HandleUpdate(env) =>
      hide LogGains, Inv;
      UpdateGains(s, env);
    case HandleExternal(ev, env) =>
      hide LogGains, Inv;
      if ev == FromCaller(ShutDownManager) {
        EndingGains(s, env);
      } else {
        ExternalGains(s, ev, env);
      }
  }

  lemma {:induction false} RunGains(s: System, steps: seq<Step>)
    requires Inv(s) && Possible(s, steps)
    ensures Tellings(Run(s, steps).m.ws.log) == Tellings(s.m.ws.log) + ToldAlong(s, steps)
    ensures ShutDowns(Run(s, steps).m.ws.log) == ShutDowns(s.m.ws.log) + ShutDownsAlong(s, steps)
    decreases |steps|
  {
    hide Inv, Apply, Enabled, Tellings, ShutDowns, Addressed, Times, ToldBy, ShutDownsBy, ManagerAfter;
    if steps == [] {
      assert Tellings(s.m.ws.log) + [] == Tellings(s.m.ws.log) && ShutDowns(s.m.ws.log) + [] == ShutDowns(s.m.ws.log);
    } else {
      var t := Apply(s, steps[0]);
      StepGains(s, steps[0]);
      StepHolds(s, steps[0]);
      RunGains(t, steps[1..]);
      Assoc(Tellings(s.m.ws.log), Addressed(s.m.ws.sender, ToldBy(s, steps[0])), ToldAlong(t, steps[1..]));
      Assoc(ShutDowns(s.m.ws.log), Addressed(s.m.ws.sender, Times(ShutDownsBy(s, steps[0]))), ShutDownsAlong(t, steps[1..]));
    }
  }

  /** Main result: in every run, the handlers are handed exactly the registration of each
      SendRegisterPayload handled, the six queries of each InitializeConnection, the
      command of each PassCommand, and the tests asked for while initialized, in order and
      each to the handler whose sender is held then; and a shutdown for each reset and for
      each disconnect told to a handler still to be awaited. */
  lemma HandlersAreTold(created: Disk, started: Disk, operational: bool, steps: seq<Step>)
    requires Possible(Start(created, started, operational), steps)
    ensures var s := Start(created, started, operational);
      && Tellings(Run(s, steps).m.ws.log) == ToldAlong(s, steps)
      && ShutDowns(Run(s, steps).m.ws.log) == ShutDownsAlong(s, steps)
  {
    var s := Start(created, started, operational);
    StartHolds(created, started, operational);
    assert s.m.ws.log == [];
    assert Tellings([]) == [] && ShutDowns([]) == [];
    hide Inv, Start, Tellings, ShutDowns;
    RunGains(s, steps);
    assert [] + ToldAlong(s, steps) == ToldAlong(s, steps);
    assert [] + ShutDownsAlong(s, steps) == ShutDownsAlong(s, steps);
  }

  // ------------------------------------------------------------- whose sender is held

  function ConnectIn(u: Update): Option<Url> {
    if u.Emitted? && u.output.ConnectToTv? then Some(u.output.url) else None
  }

  /** The URLs of the ConnectToTv outputs handled, in order. */
  function Dialled(ups: seq<Update>): seq<Url> {
    Collect(ConnectIn, ups)
  }

  predicate LatestHeld(m: Manager, handled: seq<Update>) {
    && m.ws.started == Dialled(handled)
    && m.ws.sender == if m.ws.started == [] then None else Some(|m.ws.started| - 1)
  }

  predicate HoldsLatest(s: System) {
    LatestHeld(s.m, s.handled)
  }

  lemma UpdateSender(m: Manager, u: Update, env: Env)
    requires m.link == Open && Complete(env) && m.outbox == []
    ensures var r := OnUpdate(m, u, env);
      if ConnectIn(u).Some? then r.ws.started == m.ws.started + [ConnectIn(u).value] && r.ws.sender == Some(|m.ws.started|)
      else r.ws.started == m.ws.started && r.ws.sender == m.ws.sender
  {
    if u.Emitted? && !u.output.ConnectToTv? {
      OutputHands(m, u.output, env);
      hide OnOutput, HandsOver;
      LinkKept(m, OnOutput(m, u.output, env), ToldOn(u.output), if u.output.DisconnectFromTv? && ShutsDown(m) then 1 else 0);
    } else {
      StartsSilently(m, u, env);
      hide OnUpdate, Tellings, ShutDowns, Addressed, Times;
    }
  }

  lemma UpdateHoldsSender(m: Manager, handled: seq<Update>, u: Update, env: Env)
    requires m.link == Open && Complete(env) && m.outbox == [] && LatestHeld(m, handled)
    ensures LatestHeld(OnUpdate(m, u, env), handled + [u])
  {
    CollectSnoc(ConnectIn, handled, u);
    UpdateSender(m, u, env);
    hide OnUpdate, ConnectIn, Collect;
  }

  lemma UpdateHoldsLatest(s: System, env: Env)
    requires Inv(s) && HoldsLatest(s) && Enabled(s, HandleUpdate(env))
    ensures HoldsLatest(Apply(s, HandleUpdate(env)))
  {
    RunningIsOpen(s);
    UpdateHoldsSender(s.m, s.handled, s.pending[0], env);
    hide Inv, OnUpdate, LatestHeld;
  }

  lemma ExternalHoldsLatest(s: System, ev: External, env: Env)
    requires Inv(s) && HoldsLatest(s) && Enabled(s, HandleExternal(ev, env))
    ensures HoldsLatest(Apply(s, HandleExternal(ev, env)))
  {
    RunningIsOpen(s);
    hide Inv, Dialled, OnExternal, HandsOver;
    if ev == FromCaller(ShutDownManager) {
      EndingHands(s.m, env);
    } else {
      ExternalHands(s.m, ev, env);
      LinkKept(s.m, OnExternal(s.m, ev, env),
               if ev == FromCaller(CallerTestConnection) && s.m.initialized then [TestConnection] else [], 0);
    }
  }

  lemma StepHoldsLatest(s: System, step: Step)
    requires Inv(s) && HoldsLatest(s) && Enabled(s, step)
    ensures HoldsLatest(Apply(s, step))
  {
    match step
    case ConsumeInput =>
    case HandleUpdate(env) =>
      hide Inv, HoldsLatest, Apply;
      UpdateHoldsLatest(s, env);
    case HandleExternal(ev, env) =>
      hide Inv, HoldsLatest, Apply;
      ExternalHoldsLatest(s, ev, env);
  }

  lemma {:induction false} RunHoldsLatest(s: System, steps: seq<Step>)
    requires Inv(s) && HoldsLatest(s) && Possible(s, steps)
    ensures HoldsLatest(Run(s, steps))
    decreases |steps|
  {
    hide Inv, HoldsLatest, Apply, Enabled;
    if steps != [] {
      StepHoldsLatest(s, steps[0]);
      StepHolds(s, steps[0]);
      RunHoldsLatest(Apply(s, steps[0]), steps[1..]);
    }
  }

  /** Main result: in every run, a handler is started for each ConnectToTv handled, for its
      URL, and the sender held is that of the latest. */
  lemma SenderIsLatest(s: System)
    requires Reachable(s)
    ensures s.m.ws.started == Dialled(s.handled)
    ensures s.m.ws.sender == if s.m.ws.started == [] then None else Some(|s.m.ws.started| - 1)
  {
    hide Inv, Start;
    var created, started, operational, steps :|
      Possible(Start(created, started, operational), steps) && s == Run(Start(created, started, operational), steps);
    StartHolds(created, started, operational);
    assert HoldsLatest(Start(created, started, operational)) by { StartHoldsNone(created, started, operational); }
    RunHoldsLatest(Start(created, started, operational), steps);
  }

  lemma StartHoldsNone(created: Disk, started: Disk, operational: bool)
    ensures HoldsLatest(Start(created, started, operational))
  {
  }

  // ----------------------------------------------- an output never lacks its handler

  lemma {:induction false} FirstIsConnect(ins: seq<Input>)
    ensures var outs := Outputs(RunUpdates(Disconnected, ins)); outs != [] ==> outs[0].ConnectToTv?
    decreases |ins|
  {
    if ins != [] {
      OutputsOfEmit(Disconnected, ins[0]);
      CollectAppend(OutputIn, Emit(Disconnected, ins[0]), RunUpdates(Next(Disconnected, ins[0]), ins[1..]));
      if !ins[0].Connect? {
        FirstIsConnect(ins[1..]);
      }
    }
  }

  lemma {:induction false} ConnectIsDialled(ups: seq<Update>)
    ensures Outputs(ups) != [] && Outputs(ups)[0].ConnectToTv? ==> Dialled(ups) != []
    decreases |ups|
  {
    if ups != [] {
      ConnectIsDialled(ups[1..]);
    }
  }

  /** Main result: whenever an output other than ConnectToTv is to be handled, a sender is
      held, so what the output has a handler told is told. */
  lemma OutputHasHandler(s: System, env: Env)
    requires Reachable(s) && Enabled(s, HandleUpdate(env)) && s.pending[0].Emitted? && !s.pending[0].output.ConnectToTv?
    ensures s.m.ws.sender.Some?
  {
    ReachableHolds(s);
    SenderIsLatest(s);
    FirstIsConnect(s.consumed);
    assert s.pending == [s.pending[0]] + s.pending[1..];
    CollectAppend(OutputIn, s.handled, s.pending);
    CollectAppend(OutputIn, [s.pending[0]], s.pending[1..]);
    CollectOne(OutputIn, s.pending[0]);
    ConnectIsDialled(s.handled);
    var all := Outputs(s.handled + s.pending);
    assert all == Outputs(RunUpdates(Disconnected, s.consumed));
    assert all[0].ConnectToTv?;
    hide Outputs, Dialled;
  }
}
