/** The running program: the manager object, the state machine, and the channels
    between them, taking one step of the asynchronous system at a time. */
module Runtime {
  import opened Wrappers
  import opened StateMachine
  import opened ManagerModel
  import opened EventLoop
  import opened Async
  import AsyncProperties

  class Program {
    const manager: LgTvManager
    var toFsm: seq<Input>
    var fromFsm: seq<Update>
    var fsm: State
    ghost var consumed: seq<Input>
    ghost var handled: seq<Update>
    ghost var accepted: Option<Connection>
    ghost var commands: seq<TvCommand>

    ghost function View(): System
      reads this, manager
    {
      System(manager.View(), toFsm, fsm, fromFsm, consumed, handled, accepted, commands)
    }

    constructor (created: Disk, started: Disk, operational: bool)
      ensures View() == Start(created, started, operational)
      ensures fresh(manager)
    {
      manager := new LgTvManager(created);
      toFsm, fromFsm, fsm := [], [], Disconnected;
      consumed, handled, accepted, commands := [], [], None, [];
      new;
      manager.Begin(started, operational);
    }

    /** One turn of the state machine task. */
    method Consume()
      requires Enabled(View(), ConsumeInput)
      modifies this
      ensures View() == Apply(old(View()), ConsumeInput)
    {
      var input := toFsm[0];
      toFsm := toFsm[1..];
      consumed := consumed + [input];
      match Transition(fsm, input) {
        case Some(exitState) =>
          var output := OutputOf(fsm, input);
          fsm := exitState;
          fromFsm := fromFsm + (if output.Some? then [NewState(fsm), Emitted(output.value)] else [NewState(fsm)]);
        case None =>
          fromFsm := fromFsm + [TransitionError(input, fsm)];
      }
    }

    /** What the handler sent goes into the channel. */
    method Flush()
      modifies this`toFsm, manager
      ensures manager.View() == old(manager.View()).(outbox := [])
      ensures toFsm == old(toFsm) + old(manager.outbox)
    {
      toFsm := toFsm + manager.outbox;
      manager.outbox := [];
    }

    /** One turn of the manager on an update. */
    method ReceiveUpdate(env: Env)
      requires Enabled(View(), HandleUpdate(env))
      modifies this, manager
      ensures View() == Apply(old(View()), HandleUpdate(env))
    {
      var update := fromFsm[0];
      manager.HandleStateMachineUpdate(update, env);
      hide OnUpdate;
      Flush();
      fromFsm := fromFsm[1..];
      handled := handled + [update];
    }

    /** One turn of the manager on an outside event. */
    method ReceiveEvent(event: External, env: Env)
      requires Enabled(View(), HandleExternal(event, env))
      modifies this, manager
      ensures View() == Apply(old(View()), HandleExternal(event, env))
    {
      accepted := AcceptedAfter(manager.View(), event, accepted);
      if event.FromCaller? && event.msg.SendTvCommand? {
        commands := commands + [event.msg.command];
      }
      match event {
        case FromCaller(msg) => manager.HandleManagerMessage(msg, env);
        case FromWs(update) => manager.HandleWsUpdate(update, env);
        case FromNetwork(onNetwork) => manager.HandleNetworkNotification(onNetwork, env);
      }
      hide OnCaller, OnWs, OnNetwork;
      Flush();
    }

    method Take(step: Step)
      requires Enabled(View(), step)
      modifies this, manager
      ensures View() == Apply(old(View()), step)
    {
      hide Apply, Enabled;
      match step {
        case ConsumeInput => Consume();
        case HandleUpdate(env) => ReceiveUpdate(env);
        case HandleExternal(event, env) => ReceiveEvent(event, env);
      }
    }

    /** Any number of turns, in any order that is possible. */
    method TakeAll(steps: seq<Step>)
      requires Possible(View(), steps) && AsyncProperties.Inv(View())
      modifies this, manager
      ensures View() == Run(old(View()), steps)
      ensures AsyncProperties.Inv(View())
    {
      hide Apply, Enabled, AsyncProperties.Inv, View;
      var n := 0;
      assert steps[0..] == steps;
      while n < |steps|
        invariant n <= |steps|
        invariant Possible(View(), steps[n..])
        invariant Run(View(), steps[n..]) == Run(old(View()), steps)
        invariant AsyncProperties.Inv(View())
      {
        assert steps[n..][0] == steps[n] && steps[n..][1..] == steps[n + 1..];
        AsyncProperties.StepHolds(View(), steps[n]);
        Take(steps[n]);
        n := n + 1;
      }
      assert steps[n..] == [];
    }
  }
}
