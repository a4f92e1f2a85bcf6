/** Every settled run is taken by the asynchronous system. */
module DrainedReachability {
  import opened Wrappers
  import opened StateMachine
  import opened ManagerModel
  import opened Async
  import opened Drained
  import DI = DrainedInvariant
  import opened DrainedSteps

  lemma {:induction false} RunConcat(s: System, a: seq<Step>, b: seq<Step>)
    requires Possible(s, a) && RunsToCompletion(s, a)
    requires Possible(Run(s, a), b) && RunsToCompletion(Run(s, a), b)
    ensures Possible(s, a + b) && RunsToCompletion(s, a + b)
    ensures Run(s, a + b) == Run(Run(s, a), b)
    ensures ManagerSteps(a + b) == ManagerSteps(a) + ManagerSteps(b)
    decreases |a|
  {
    hide Apply, Enabled;
    if a == [] {
      assert a + b == b;
    } else {
      Front(a, b);
      RunConcat(Apply(s, a[0]), a[1..], b);
    }
  }

  /** The machine empties its queue, unseen. */
  lemma {:induction false} ConsumeAll(s: System) returns (steps: seq<Step>)
    requires s.m.link == Open
    ensures Possible(s, steps) && RunsToCompletion(s, steps) && ManagerSteps(steps) == []
    ensures Run(s, steps).queue == [] && Run(s, steps).m == s.m && Settle(Run(s, steps)) == Settle(s)
    decreases |s.queue|
  {
    if s.queue == [] {
      steps := [];
    } else {
      hide Settle;
      var t := Apply(s, ConsumeInput);
      ConsumingIsInvisible(s);
      var rest := ConsumeAll(t);
      steps := [ConsumeInput] + rest;
      assert steps[1..] == rest;
    }
  }

  lemma CanStepIsEnabled(s: System, step: Step)
    requires s.queue == [] && CanStep(Settle(s), step)
    ensures Enabled(s, step) && !step.ConsumeInput? && s.m.running
    ensures step.HandleExternal? ==> IsDrained(s) && step.event != FromCaller(ShutDownManager)
  {
    assert s.pending + RunUpdates(s.fsm, []) == s.pending;
  }

  lemma LinkIsOpen(s: System)
    requires DI.Inv(Settle(s))
    ensures s.m.link == Open
  {
  }

  lemma {:induction false} Taking(s: System, steps: seq<Step>) returns (taken: seq<Step>)
    requires s.queue == [] && DI.Inv(Settle(s)) && CanRun(Settle(s), steps)
    ensures Possible(s, taken) && RunsToCompletion(s, taken) && ManagerSteps(taken) == steps
    ensures Run(s, taken).queue == [] && Settle(Run(s, taken)) == RunFrom(Settle(s), steps)
    decreases |steps|
  {
    if steps == [] {
      taken := [];
    } else {
      hide Settle, After, DI.Inv, Apply, Enabled, CanStep, IsDrained;
      CanStepIsEnabled(s, steps[0]);
      ManagerStepMatches(s, steps[0]);
      StepSettles(Settle(s), steps[0]);
      var t := Apply(s, steps[0]);
      LinkIsOpen(t);
      var quiet := ConsumeAll(t);
      var rest := Taking(Run(t, quiet), steps[1..]);
      RunConcat(t, quiet, rest);
      taken := [steps[0]] + (quiet + rest);
      assert taken[1..] == quiet + rest;
      assert [] + steps[1..] == steps[1..];
    }
  }

  /** Main result: the settled system takes no run the asynchronous one cannot
      take with outside events finding the queues empty. */
  lemma SettledRunsAreTaken(s: System, steps: seq<Step>)
    requires s.queue == [] && DI.Inv(Settle(s)) && CanRun(Settle(s), steps)
    ensures exists taken ::
      && Possible(s, taken) && RunsToCompletion(s, taken) && ManagerSteps(taken) == steps
      && Run(s, taken).queue == [] && Settle(Run(s, taken)) == RunFrom(Settle(s), steps)
  {
    var taken := Taking(s, steps);
  }
}
