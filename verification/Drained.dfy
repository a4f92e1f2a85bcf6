/** Run to completion: the same system when the loop is woken from outside only
    while both queues are empty. The state machine is then never seen to lag: a
    settled system shows the machine ahead of the manager, with every update the
    queued inputs will cause already pending. */
module Drained {
  import opened Wrappers
  import opened StateMachine
  import opened ManagerModel
  import opened Async

  /** The manager, the machine after every input sent, and the updates the manager
      has yet to handle. */
  datatype Settled = Settled(m: Manager, fsm: State, pend: seq<Update>)

  predicate CanStep(b: Settled, step: Step) {
    && b.m.running
    && match step
       case ConsumeInput => false
       case HandleUpdate(env) => Plausible(b.m, env) && b.pend != []
       case HandleExternal(ev, env) =>
         && Plausible(b.m, env) && b.pend == []
         && ev != FromCaller(ShutDownManager)
         && (ev.FromWs? ==> b.m.ws.receiver.Some?)
         && (ev.FromNetwork? ==> Pings(b.m))
  }

  /** The manager right after the step, its outbox not yet delivered. */
  function Reacted(b: Settled, step: Step): Manager
    requires CanStep(b, step)
  {
    match step
    case HandleUpdate(env) => OnUpdate(b.m, b.pend[0], env)
    case HandleExternal(ev, env) => OnExternal(b.m, ev, env)
  }

  /** The machine consumes what the manager has just sent. */
  function Deliver(m: Manager, fsm: State, pend: seq<Update>): Settled {
    Settled(m.(outbox := []), RunState(fsm, m.outbox), pend + RunUpdates(fsm, m.outbox))
  }

  function After(b: Settled, step: Step): Settled
    requires CanStep(b, step)
  {
    Deliver(Reacted(b, step), b.fsm, if step.HandleUpdate? then b.pend[1..] else [])
  }

  predicate CanRun(b: Settled, steps: seq<Step>)
    decreases |steps|
  {
    steps == [] || (CanStep(b, steps[0]) && CanRun(After(b, steps[0]), steps[1..]))
  }

  function RunFrom(b: Settled, steps: seq<Step>): Settled
    requires CanRun(b, steps)
    decreases |steps|
  {
    if steps == [] then b else RunFrom(After(b, steps[0]), steps[1..])
  }

  /** A step that sends a Connect to the machine. */
  predicate Dials(b: Settled, step: Step)
    requires CanStep(b, step)
  {
    exists i :: i in Reacted(b, step).outbox && i.Connect?
  }

  // ------------------------------------------- from the asynchronous system

  predicate IsDrained(s: System) {
    s.queue == [] && s.pending == []
  }

  function Settle(s: System): Settled {
    Settled(s.m, RunState(s.fsm, s.queue), s.pending + RunUpdates(s.fsm, s.queue))
  }

  /** The runs in which outside events find the queues empty. */
  predicate RunsToCompletion(s: System, steps: seq<Step>)
    requires Possible(s, steps)
    decreases |steps|
  {
    steps == [] ||
    (&& (steps[0].HandleExternal? ==> IsDrained(s) && steps[0].event != FromCaller(ShutDownManager))
     && RunsToCompletion(Apply(s, steps[0]), steps[1..]))
  }

  /** The steps of a run that the manager takes. */
  function ManagerSteps(steps: seq<Step>): seq<Step> {
    if steps == [] then []
    else if steps[0].ConsumeInput? then ManagerSteps(steps[1..])
    else [steps[0]] + ManagerSteps(steps[1..])
  }

  /** Consuming an input changes nothing that is settled. */
  lemma ConsumingIsInvisible(s: System)
    requires Enabled(s, ConsumeInput)
    ensures Settle(Apply(s, ConsumeInput)) == Settle(s)
  {
    var i := s.queue[0];
    Assoc(s.pending, Emit(s.fsm, i), RunUpdates(Next(s.fsm, i), s.queue[1..]));
  }

  lemma ManagerStepMatches(s: System, step: Step)
    requires Enabled(s, step) && !step.ConsumeInput? && s.m.running
    requires step.HandleExternal? ==> IsDrained(s) && step.event != FromCaller(ShutDownManager)
    ensures CanStep(Settle(s), step)
    ensures Settle(Apply(s, step)) == After(Settle(s), step)
    ensures ManagerAfter(s, step) == Reacted(Settle(s), step)
  {
    hide OnUpdate, OnExternal;
    var m1 := ManagerAfter(s, step);
    RunAppend(s.fsm, s.queue, m1.outbox);
    if step.HandleUpdate? {
      var ahead := RunUpdates(s.fsm, s.queue);
      assert (s.pending + ahead)[0] == s.pending[0];
      assert (s.pending + ahead)[1..] == s.pending[1..] + ahead;
      Assoc(s.pending[1..], ahead, RunUpdates(RunState(s.fsm, s.queue), m1.outbox));
    } else {
      assert s.queue + m1.outbox == m1.outbox;
    }
  }

  /** Main result: whatever order the machine and the manager take their turns in,
      a run in which outside events find the queues empty is, step for step of the
      manager, a run of the settled system; and when its queues are empty the two
      agree. So what every settled run obeys, every such run obeys. */
  lemma {:induction false} RunsSettle(s: System, steps: seq<Step>)
    requires Possible(s, steps) && RunsToCompletion(s, steps)
    ensures CanRun(Settle(s), ManagerSteps(steps))
    ensures Settle(Run(s, steps)) == RunFrom(Settle(s), ManagerSteps(steps))
    decreases |steps|
  {
    if steps != [] {
      hide Settle, After, Apply, Enabled, CanStep;
      var t := Apply(s, steps[0]);
      RunsSettle(t, steps[1..]);
      if steps[0].ConsumeInput? {
        ConsumingIsInvisible(s);
      } else {
        ManagerStepMatches(s, steps[0]);
        var rest := ManagerSteps(steps[1..]);
        assert ManagerSteps(steps)[1..] == rest;
      }
    }
  }

}
