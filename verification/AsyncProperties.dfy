/** What every run of the asynchronous system keeps, whatever the interleaving. */
module AsyncProperties {
  import opened Wrappers
  import opened StateMachine
  import opened StateMachineProperties
  import opened ManagerModel
  import opened ReconnectHistory
  import opened ManagerFacts
  import opened Async

  // ------------------------------------------------------- the fate of commands

  function SentCommand(i: Input): Option<TvCommand> {
    if i.SendCommand? then Some(i.command) else None
  }

  datatype Fate = Passed(command: TvCommand) | Refused(command: TvCommand)

  function FateIn(u: Update): Option<Fate> {
    match u
    case Emitted(PassCommand(c)) => Some(Passed(c))
    case TransitionError(SendCommand(c), _) => Some(Refused(c))
    case _ => None
  }

  function FateCommand(f: Fate): Option<TvCommand> {
    Some(f.command)
  }

  function PassedCommand(f: Fate): Option<TvCommand> {
    if f.Passed? then Some(f.command) else None
  }

  function Fates(ups: seq<Update>): seq<Fate> {
    Collect(FateIn, ups)
  }

  function CommandsOf(fates: seq<Fate>): seq<TvCommand> {
    Collect(FateCommand, fates)
  }

  function PassedOf(fates: seq<Fate>): seq<TvCommand> {
    Collect(PassedCommand, fates)
  }

  /** The fate each command deserves: passed on if and only if it is consumed
      while Communicating. */
  function Deserved(s: State, ins: seq<Input>): seq<Fate>
    decreases |ins|
  {
    if ins == [] then []
    else
      var rest := Deserved(Next(s, ins[0]), ins[1..]);
      if !ins[0].SendCommand? then rest
      else [if s.Communicating? then Passed(ins[0].command) else Refused(ins[0].command)] + rest
  }

  lemma FatesOfEmit(s: State, i: Input)
    ensures Fates(Emit(s, i)) ==
      if !i.SendCommand? then []
      else [if s.Communicating? then Passed(i.command) else Refused(i.command)]
  {
    var ups := Emit(s, i);
    CollectOne(FateIn, ups[0]);
    if |ups| == 2 {
      CollectSnoc(FateIn, [ups[0]], ups[1]);
      assert ups == [ups[0]] + [ups[1]];
    } else {
      assert ups == [ups[0]];
    }
  }

  lemma {:induction false} FatesAreDeserved(s: State, ins: seq<Input>)
    ensures Fates(RunUpdates(s, ins)) == Deserved(s, ins)
    decreases |ins|
  {
    if ins != [] {
      var t := Next(s, ins[0]);
      CollectAppend(FateIn, Emit(s, ins[0]), RunUpdates(t, ins[1..]));
      FatesOfEmit(s, ins[0]);
      FatesAreDeserved(t, ins[1..]);
    }
  }

  lemma {:induction false} NoCommandIsLost(s: State, ins: seq<Input>)
    ensures CommandsOf(Deserved(s, ins)) == Collect(SentCommand, ins)
    decreases |ins|
  {
    if ins != [] {
      NoCommandIsLost(Next(s, ins[0]), ins[1..]);
      var rest := Deserved(Next(s, ins[0]), ins[1..]);
      if ins[0].SendCommand? {
        assert Deserved(s, ins)[1..] == rest;
      }
    }
  }

  // ------------------------------------------------------------- the invariant

  predicate Mirrors(s: System) {
    && s.handled + s.pending == RunUpdates(Disconnected, s.consumed)
    && s.fsm == RunState(Disconnected, s.consumed)
  }

  predicate Live(s: System) {
    && s.m.link == Open
    && s.m.status == Latest(Disconnected, s.handled)
    && Sound(s.m, s.accepted)
    && (s.m.ws.sender.None? ==> forall o | o in Outputs(s.handled) :: !o.ConnectToTv?)
    && HandedCommands(s.m.ws.log) == PassedOf(Fates(s.handled))
    && s.commands == Collect(SentCommand, s.consumed + s.queue)
  }

  predicate Inv(s: System) {
    && s.m.outbox == []
    && Mirrors(s)
    && (s.m.running <==> s.m.link == Open)
    && (s.m.running ==> Live(s))
  }

  lemma StartHolds(created: Disk, started: Disk, operational: bool)
    ensures Inv(Start(created, started, operational))
  {
    var m := NewManager(created).(link := Open);
    Snoc(InitializeManagerState(m, started).reconnect.marks, FlowSet(Inactive));
  }

  lemma ConsumeHolds(s: System)
    requires Inv(s) && Enabled(s, ConsumeInput)
    ensures Inv(Apply(s, ConsumeInput))
  {
    var i := s.queue[0];
    RunSnoc(Disconnected, s.consumed, i);
    Assoc(s.handled, s.pending, Emit(s.fsm, i));
    assert s.consumed + s.queue == (s.consumed + [i]) + s.queue[1..];
  }

  lemma SendsKeepCommands(s: System, ins: seq<Input>)
    requires SendsNoCommand(ins)
    ensures Collect(SentCommand, s.consumed + (s.queue + ins)) == Collect(SentCommand, s.consumed + s.queue)
  {
    Assoc(s.consumed, s.queue, ins);
    CollectAppend(SentCommand, s.consumed + s.queue, ins);
    NothingToCollect(ins);
  }

  lemma {:induction false} NothingToCollect(ins: seq<Input>)
    requires SendsNoCommand(ins)
    ensures Collect(SentCommand, ins) == []
  {
    if ins != [] {
      assert ins[0] in ins;
      assert forall i | i in ins[1..] :: i in ins;
      NothingToCollect(ins[1..]);
    }
  }

  /** A handler of the loop that keeps the manager sound keeps the invariant. */
  lemma ExternalHolds(s: System, ev: External, env: Env)
    requires Inv(s) && Enabled(s, HandleExternal(ev, env))
    requires !(ev.FromCaller? && (ev.msg.SendTvCommand? || ev.msg.ShutDownManager?))
    ensures Inv(Apply(s, HandleExternal(ev, env)))
    ensures DialsTarget(OnExternal(s.m, ev, env).outbox, Apply(s, HandleExternal(ev, env)).accepted)
  {
    hide HandedCommands, CountsRetries;
    var t := Apply(s, HandleExternal(ev, env));
    match ev {
      case FromCaller(msg) => CallerKeeps(s.m, msg, env, s.accepted);
      case FromWs(w) => WsKeeps(s.m, w, env, s.accepted);
      case FromNetwork(onNetwork) => NetworkKeeps(s.m, onNetwork, env, s.accepted);
    }
    hide OnCaller, OnWs, OnNetwork;
    var m1 := OnExternal(s.m, ev, env);
    assert Keeps(s.m, m1, t.accepted);
    SendsKeepCommands(s, m1.outbox);
  }

  lemma CommandHolds(s: System, c: TvCommand, env: Env)
    requires Inv(s) && Enabled(s, HandleExternal(FromCaller(SendTvCommand(c)), env))
    ensures Inv(Apply(s, HandleExternal(FromCaller(SendTvCommand(c)), env)))
    ensures OnExternal(s.m, FromCaller(SendTvCommand(c)), env).outbox == [SendCommand(c)]
  {
    Assoc(s.consumed, s.queue, [SendCommand(c)]);
    CollectSnoc(SentCommand, s.consumed + s.queue, SendCommand(c));
    assert s.m.outbox + [SendCommand(c)] == [SendCommand(c)];
  }

  /** A command is passed on only once a handler has been started. */
  lemma PassingHasHandler(s: System)
    requires Mirrors(s) && s.pending != [] && s.pending[0].Emitted? && s.pending[0].output.PassCommand?
    ensures exists o :: o in Outputs(s.handled) && o.ConnectToTv?
  {
    var outs := Outputs(s.handled + s.pending);
    var before := Outputs(s.handled);
    var k := |before|;
    CommandsOnlyInOpenSessions(s.consumed);
    CollectAppend(OutputIn, s.handled, s.pending);
    assert outs[k].PassCommand? && outs[..k] == before;
    var url :| OpenSession(Session(outs[..k]), url);
    OpenStartsWithConnect(Session(before), url);
    SessionIsWithin(before);
    assert Session(before)[0] in before;
  }

  lemma {:induction false} SessionIsWithin(outs: seq<Output>)
    ensures forall o | o in Session(outs) :: o in outs
  {
    if outs != [] {
      SessionIsWithin(outs[..|outs| - 1]);
      SessionSnoc(outs[..|outs| - 1], outs[|outs| - 1]);
      assert outs == outs[..|outs| - 1] + [outs[|outs| - 1]];
    }
  }

  lemma HandledOneMore(handled: seq<Update>, u: Update)
    ensures Latest(Disconnected, handled + [u]) == if u.NewState? then u.state else Latest(Disconnected, handled)
    ensures Outputs(handled + [u]) == Outputs(handled) + (if u.Emitted? then [u.output] else [])
    ensures PassedOf(Fates(handled + [u])) ==
      PassedOf(Fates(handled)) + (if u.Emitted? && u.output.PassCommand? then [u.output.command] else [])
  {
    LatestAppend(Disconnected, handled, [u]);
    CollectSnoc(OutputIn, handled, u);
    CollectSnoc(FateIn, handled, u);
    if FateIn(u).Some? {
      CollectSnoc(PassedCommand, Fates(handled), FateIn(u).value);
    }
  }

  lemma UpdateHolds(s: System, env: Env)
    requires Inv(s) && Enabled(s, HandleUpdate(env))
    ensures Inv(Apply(s, HandleUpdate(env)))
    ensures DialsTarget(OnUpdate(s.m, s.pending[0], env).outbox, s.accepted)
  {
    hide HandedCommands, CountsRetries, OnOutput, PassedOf, Fates, Outputs, RunUpdates, RunState;
    var u := s.pending[0];
    var t := Apply(s, HandleUpdate(env));
    assert s.handled + s.pending == t.handled + t.pending;
    HandledOneMore(s.handled, u);
    if u.Emitted? {
      OutputKeeps(s.m, u.output, env, s.accepted);
      if u.output.PassCommand? {
        PassingHasHandler(s);
      }
    }
    SendsKeepCommands(s, OnUpdate(s.m, u, env).outbox);
  }

  /** Shutting down ends the run; the manager turns Zombie exactly when there is a
      handler to shut down and it cannot be told. */
  lemma ShutDownHolds(s: System, env: Env)
    requires Inv(s) && Enabled(s, HandleExternal(FromCaller(ShutDownManager), env))
    ensures var t := Apply(s, HandleExternal(FromCaller(ShutDownManager), env));
      && Inv(t)
      && !t.m.running
      && t.queue == s.queue
      && ManagerAfter(s, HandleExternal(FromCaller(ShutDownManager), env)).outbox == []
      && (t.m.status == Zombie <==>
            s.m.ws.joinHandle.Some? && s.m.ws.sender.Some? && !env.answer.sent)
  {
    hide HandedCommands, CountsRetries, PassedOf, Fates, Outputs, RunUpdates, RunState, OnCaller;
    RealStatus(s);
    ShutDownOutcome(s.m, env);
    assert s.queue + [] == s.queue;
  }

  /** The manager's status is always a state the machine has been in. */
  lemma RealStatus(s: System)
    requires Inv(s) && s.m.running
    ensures Real(s.m.status)
  {
    StaysReal(Disconnected, s.consumed);
    assert forall u | u in s.handled :: u in s.handled + s.pending;
    LatestIsReal(Disconnected, s.handled);
  }

  lemma {:induction false} LatestIsReal(s: State, ups: seq<Update>)
    requires Real(s) && forall u | u in ups && u.NewState? :: Real(u.state)
    ensures Real(Latest(s, ups))
    decreases |ups|
  {
    if ups != [] {
      assert ups[0] in ups;
      assert forall u | u in ups[1..] :: u in ups;
      LatestIsReal(if ups[0].NewState? then ups[0].state else s, ups[1..]);
    }
  }

  // ------------------------------------------------------------------ every run

  lemma StepHolds(s: System, step: Step)
    requires Inv(s) && Enabled(s, step)
    ensures Inv(Apply(s, step))
  {
    hide Inv, Apply, Enabled;
    match step
    case ConsumeInput => ConsumeHolds(s);
    case HandleUpdate(env) => UpdateHolds(s, env);
    case HandleExternal(ev, env) =>
      if ev.FromCaller? && ev.msg.SendTvCommand? {
        CommandHolds(s, ev.msg.command, env);
      } else if ev.FromCaller? && ev.msg.ShutDownManager? {
        ShutDownHolds(s, env);
      } else {
        ExternalHolds(s, ev, env);
      }
  }

  lemma {:induction false} RunHolds(s: System, steps: seq<Step>)
    requires Inv(s) && Possible(s, steps)
    ensures Inv(Run(s, steps))
    decreases |steps|
  {
    hide Inv, Apply;
    if steps != [] {
      StepHolds(s, steps[0]);
      RunHolds(Apply(s, steps[0]), steps[1..]);
    }
  }

  ghost predicate Reachable(s: System) {
    exists created, started, operational, steps ::
      Possible(Start(created, started, operational), steps) && s == Run(Start(created, started, operational), steps)
  }

  lemma ReachableHolds(s: System)
    requires Reachable(s)
    ensures Inv(s)
  {
    hide Inv, Start;
    var created, started, operational, steps :|
      Possible(Start(created, started, operational), steps) && s == Run(Start(created, started, operational), steps);
    StartHolds(created, started, operational);
    RunHolds(Start(created, started, operational), steps);
  }

  // --------------------------------------------------------------- main results

  lemma StepDials(s: System, step: Step)
    requires Inv(s) && Enabled(s, step)
    ensures DialsTarget(ManagerAfter(s, step).outbox, Apply(s, step).accepted)
  {
    hide OnCaller, OnUpdate, OnWs, OnNetwork;
    match step
    case ConsumeInput =>
    case HandleUpdate(env) => UpdateHolds(s, env);
    case HandleExternal(ev, env) =>
      if ev.FromCaller? && ev.msg.SendTvCommand? {
        CommandHolds(s, ev.msg.command, env);
      } else if ev.FromCaller? && ev.msg.ShutDownManager? {
        ShutDownHolds(s, env);
      } else {
        ExternalHolds(s, ev, env);
      }
  }

  /** Every Connect the run sends asks for the connection accepted last by then. */
  predicate DialsAccepted(s: System, steps: seq<Step>)
    requires Possible(s, steps)
    decreases |steps|
  {
    steps == [] ||
    (DialsTarget(ManagerAfter(s, steps[0]).outbox, Apply(s, steps[0]).accepted) &&
     DialsAccepted(Apply(s, steps[0]), steps[1..]))
  }

  lemma {:induction false} RunDials(s: System, steps: seq<Step>)
    requires Inv(s) && Possible(s, steps)
    ensures DialsAccepted(s, steps)
    decreases |steps|
  {
    hide Inv, Apply, ManagerAfter, Enabled;
    if steps != [] {
      StepDials(s, steps[0]);
      StepHolds(s, steps[0]);
      RunDials(Apply(s, steps[0]), steps[1..]);
    }
  }

  /** Main result: every Connect ever sent, by a request or by a retry, asks for
      the URL of the connection the caller's latest accepted request named. */
  lemma EveryConnectDialsTheAcceptedConnection(created: Disk, started: Disk, operational: bool, steps: seq<Step>)
    requires Possible(Start(created, started, operational), steps)
    ensures DialsAccepted(Start(created, started, operational), steps)
  {
    StartHolds(created, started, operational);
    hide Inv, Start;
    RunDials(Start(created, started, operational), steps);
  }

  /** Main result: the update stream is the sequential run of the machine over the
      inputs consumed; the status, once the pending updates are read, is the
      machine's state, and it is never Zombie or WaitingToReconnect. */
  lemma StatusMirrorsMachine(s: System)
    requires Reachable(s)
    ensures s.handled + s.pending == RunUpdates(Disconnected, s.consumed)
    ensures s.m.running ==> Latest(s.m.status, s.pending) == s.fsm
    ensures s.m.running ==> !s.m.status.Zombie? && !s.m.status.WaitingToReconnect?
  {
    ReachableHolds(s);
    MirrorsMachine(Disconnected, s.consumed);
    LatestAppend(Disconnected, s.handled, s.pending);
    if s.m.running {
      RealStatus(s);
    }
  }

  /** Main result: every command the caller sent is, in order, handled, pending as
      an update, or still queued; each consumed one was passed on or refused once,
      and passed on exactly if the machine was Communicating; and those handed to
      the handler are exactly those passed on and handled. */
  lemma CommandsAreConserved(s: System)
    requires Reachable(s) && s.m.running
    ensures s.commands ==
      CommandsOf(Fates(s.handled)) + CommandsOf(Fates(s.pending)) + Collect(SentCommand, s.queue)
    ensures Fates(s.handled) + Fates(s.pending) == Deserved(Disconnected, s.consumed)
    ensures HandedCommands(s.m.ws.log) == PassedOf(Fates(s.handled))
  {
    ReachableHolds(s);
    FatesAreDeserved(Disconnected, s.consumed);
    NoCommandIsLost(Disconnected, s.consumed);
    CollectAppend(FateIn, s.handled, s.pending);
    CollectAppend(FateCommand, Fates(s.handled), Fates(s.pending));
    CollectAppend(SentCommand, s.consumed, s.queue);
  }

  /** Main result: a flow that is to reconnect always knows its connection, so a
      retry never lacks one, and its URL is one that parsed. */
  lemma ReconnectHasTarget(s: System)
    requires Reachable(s) && s.m.running
    requires s.m.reconnect.flow == Active || s.m.reconnect.flow == WaitingForTvOnNetwork
    ensures s.m.connection.Some? && s.m.connection == s.accepted && s.m.connection.value.wsUrl.Some?
  {
    ReachableHolds(s);
  }

  /** Main result: while Active, the counter is the number of retries since the
      flow last became Active; every delay was the one for the count its stretch
      had reached. */
  lemma AttemptsCountTheStretch(s: System)
    requires Reachable(s) && s.m.running
    ensures s.m.reconnect.flow == Active ==> s.m.reconnect.attempts == RetriesInStretch(s.m.reconnect.marks)
    ensures RetriesFollowSchedule(s.m.reconnect.marks)
    ensures s.m.reconnect.flow == LastFlow(s.m.reconnect.marks)
  {
    ReachableHolds(s);
  }

  /** Main result: in every run, no wait of an uninterrupted stretch is shorter
      than an earlier one. */
  lemma DelaysNeverShrink(s: System, i: nat, j: nat)
    requires Reachable(s) && s.m.running
    requires i < j < |s.m.reconnect.marks| && Uninterrupted(s.m.reconnect.marks, i, j)
    requires WaitIn(s.m.reconnect.marks[i]).Some? && WaitIn(s.m.reconnect.marks[j]).Some?
    ensures 250 <= WaitIn(s.m.reconnect.marks[i]).value <= WaitIn(s.m.reconnect.marks[j]).value <= 10_000
  {
    ReachableHolds(s);
    WaitsNeverShrink(s.m.reconnect.marks, i, j);
  }
}
