/** The asynchronous system: the manager's event loop, the state machine task,
    and the two queues between them. Any of the loop's branches may run at any
    time; one branch body and one consumed input are one step each. */
module Async {
  import opened Wrappers
  import opened StateMachine
  import opened ManagerModel

  datatype System = System(
    m: Manager,
    queue: seq<Input>,             // sent to the state machine, not yet consumed
    fsm: State,
    pending: seq<Update>,          // sent to the manager, not yet handled
    consumed: seq<Input>,          // history
    handled: seq<Update>,          // history
    accepted: Option<Connection>,  // history: the caller's latest accepted request
    commands: seq<TvCommand>)      // history: every command the caller sent

  datatype Step =
    | ConsumeInput
    | HandleUpdate(env: Env)
    | HandleExternal(event: External, env: Env)

  predicate Enabled(s: System, step: Step) {
    match step
    case ConsumeInput => s.queue != [] && s.m.link == Open
    case HandleUpdate(env) => s.m.running && Plausible(s.m, env) && s.pending != []
    case HandleExternal(ev, env) =>
      && s.m.running && Plausible(s.m, env)
      && (ev.FromWs? ==> s.m.ws.receiver.Some?)
      && (ev.FromNetwork? ==> Pings(s.m))
  }

  /** The manager right after the step, with the inputs it sent still in its
      outbox. */
  function ManagerAfter(s: System, step: Step): Manager
    requires Enabled(s, step)
  {
    match step
    case ConsumeInput => s.m
    case HandleUpdate(env) => OnUpdate(s.m, s.pending[0], env)
    case HandleExternal(ev, env) => OnExternal(s.m, ev, env)
  }

  function Apply(s: System, step: Step): System
    requires Enabled(s, step)
  {
    var m1 := ManagerAfter(s, step);
    match step
    case ConsumeInput =>
      var i := s.queue[0];
      s.(queue := s.queue[1..], fsm := Next(s.fsm, i), pending := s.pending + Emit(s.fsm, i), consumed := s.consumed + [i])
    case HandleUpdate(_) =>
      s.(m := m1.(outbox := []), queue := s.queue + m1.outbox,
         pending := s.pending[1..], handled := s.handled + [s.pending[0]])
    case HandleExternal(ev, _) =>
      s.(m := m1.(outbox := []), queue := s.queue + m1.outbox,
         accepted := AcceptedAfter(s.m, ev, s.accepted),
         commands := if ev.FromCaller? && ev.msg.SendTvCommand? then s.commands + [ev.msg.command] else s.commands)
  }

  function Start(created: Disk, started: Disk, operational: bool): System {
    System(StartedManager(NewManager(created), started, operational), [], Disconnected, [], [], [], None, [])
  }

  predicate Possible(s: System, steps: seq<Step>)
    decreases |steps|
  {
    steps == [] || (Enabled(s, steps[0]) && Possible(Apply(s, steps[0]), steps[1..]))
  }

  function Run(s: System, steps: seq<Step>): System
    requires Possible(s, steps)
    decreases |steps|
  {
    if steps == [] then s else Run(Apply(s, steps[0]), steps[1..])
  }
}
