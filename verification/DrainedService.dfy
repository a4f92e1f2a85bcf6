/** A connection that is communicating serves its caller. */
module DrainedService {
  import opened StateMachine
  import opened ManagerModel
  import opened Async
  import opened Drained
  import opened DrainedInvariant
  import opened DrainedFinality
  import opened DrainedLoss

  function AskedSteps(msg: ManagerMessage, asked: Env, read: Env, handled: Env): seq<Step> {
    [HandleExternal(FromCaller(msg), asked), HandleUpdate(read), HandleUpdate(handled)]
  }

  /** What handling an output leaves, if it sends the machine nothing. */
  lemma HandledAlone(b: Settled, o: Output, env: Env)
    requires b.m.running && b.pend == [Emitted(o)] && Plausible(b.m, env) && OnOutput(b.m, o, env).outbox == []
    ensures CanStep(b, HandleUpdate(env)) && !Dials(b, HandleUpdate(env))
    ensures After(b, HandleUpdate(env)) == Settled(OnOutput(b.m, o, env), b.fsm, [])
  {
    hide OnOutput, Plausible;
    NothingSent(OnOutput(b.m, o, env), b.fsm, []);
    assert b.pend[1..] == [];
  }

  /** A request of the caller that sends one input, which the machine takes. */
  lemma AskedAlone(b: Settled, msg: ManagerMessage, env: Env, r: Manager, i: Input, o: Output)
    requires b.m.running && b.pend == [] && Plausible(b.m, env) && msg != ShutDownManager
    requires OnCaller(b.m, msg, env) == r && r.outbox == [i] && !i.Connect?
    requires Emit(b.fsm, i) == [NewState(Next(b.fsm, i)), Emitted(o)]
    ensures CanStep(b, HandleExternal(FromCaller(msg), env)) && !Dials(b, HandleExternal(FromCaller(msg), env))
    ensures After(b, HandleExternal(FromCaller(msg), env)) ==
      Settled(r.(outbox := []), Next(b.fsm, i), [NewState(Next(b.fsm, i)), Emitted(o)])
  {
    hide OnCaller, Plausible, Emit, Next;
    RunOne(b.fsm, i);
    assert [] + [NewState(Next(b.fsm, i)), Emitted(o)] == [NewState(Next(b.fsm, i)), Emitted(o)];
  }

  /** Main result: a command asked for while Communicating is handed to the handler, once,
      and leaves everything else as it was; if the handler is gone the connection is
      dropped and the machine is back at Disconnected. */
  lemma CommandIsServed(b: Settled, c: TvCommand, asked: Env, read: Env, handled: Env)
    requires Inv(b) && b.pend == [] && b.fsm.Communicating?
    requires Plausible(b.m, asked) && Plausible(b.m, read) && Plausible(b.m, handled)
    ensures var steps := AskedSteps(SendTvCommand(c), asked, read, handled);
      && CanRun(b, steps)
      && b.m.ws.sender.Some?
      && var t := RunFrom(b, steps);
      && (handled.answer.sent ==>
            t == Settled(b.m.(ws := b.m.ws.(log := b.m.ws.log + [Handed(b.m.ws.sender.value, Command(c))])), b.fsm, []))
      && (!handled.answer.sent ==> t.fsm == Disconnected && t.m.connection.None? && t.m.ws.joinHandle.None?)
  {
    UpFacts(b);
    var ask := HandleExternal(FromCaller(SendTvCommand(c)), asked);
    var r := b.m.(outbox := [SendCommand(c)]);
    assert b.m.running && OnCaller(b.m, SendTvCommand(c), asked) == r;
    AskedAlone(b, SendTvCommand(c), asked, r, SendCommand(c), PassCommand(c));
    var t1 := After(b, ask);
    assert t1 == Settled(b.m, b.fsm, [NewState(b.fsm), Emitted(PassCommand(c))]);
    hide Inv, After, CanStep, Dials;
    StateIsRead(t1, b.fsm, PassCommand(c), read);
    var t2 := After(t1, HandleUpdate(read));
    assert t2 == Settled(b.m, b.fsm, [Emitted(PassCommand(c))]);
    if handled.answer.sent {
      HandledAlone(t2, PassCommand(c), handled);
    } else {
      DroppedInstead(t2, PassCommand(c), handled);
    }
    LossRuns(b, ask, HandleUpdate(read), HandleUpdate(handled));
  }

  /** A send that is refused drops the connection. */
  lemma DroppedInstead(b: Settled, o: Output, env: Env)
    requires b.m.running && b.pend == [Emitted(o)] && o.PassCommand? && Plausible(b.m, env) && !env.answer.sent
    requires b.m.ws.sender.Some? && b.m.link == Open && b.m.outbox == [] && b.m.reconnect.flow == Inactive
    requires b.fsm.Communicating?
    ensures CanStep(b, HandleUpdate(env)) && !Dials(b, HandleUpdate(env))
    ensures var t := After(b, HandleUpdate(env));
      t.fsm == Disconnected && t.m.connection.None? && t.m.ws.joinHandle.None?
  {
    var r := OnOutput(b.m, o, env);
    assert r.outbox == [Reset] && r.connection.None? && r.ws.joinHandle.None?;
    hide OnOutput, Plausible;
    RunOne(b.fsm, Reset);
  }

  lemma DisconnectIsTold(b: Settled, asked: Env, read: Env, told: Env)
    requires Inv(b) && b.pend == [] && b.fsm.Communicating? && told.answer.sent
    requires Plausible(b.m, asked) && Plausible(b.m, read) && Plausible(b.m, told)
    ensures var steps := AskedSteps(CallerDisconnect, asked, read, told);
      && CanRun(b, steps) && NeverDials(b, steps)
      && b.m.ws.sender.Some?
      && RunFrom(b, steps) ==
           Settled(b.m.(manualDisconnect := true, status := Disconnecting(b.fsm.url),
                        ws := b.m.ws.(log := b.m.ws.log + [Handed(b.m.ws.sender.value, ShutDown)])),
                   Disconnecting(b.fsm.url), [])
  {
    UpFacts(b);
    var url := b.fsm.url;
    var ask := HandleExternal(FromCaller(CallerDisconnect), asked);
    var r := b.m.(manualDisconnect := true, outbox := [StateMachine.Disconnect]);
    assert b.m.running && OnCaller(b.m, CallerDisconnect, asked) == r;
    AskedAlone(b, CallerDisconnect, asked, r, StateMachine.Disconnect, DisconnectFromTv);
    var t1 := After(b, ask);
    var m1 := b.m.(manualDisconnect := true);
    assert t1 == Settled(m1, Disconnecting(url), [NewState(Disconnecting(url)), Emitted(DisconnectFromTv)]);
    hide Inv, After, CanStep, Dials;
    StateIsRead(t1, Disconnecting(url), DisconnectFromTv, read);
    var t2 := After(t1, HandleUpdate(read));
    HandlerIsTold(t2.m, told);
    hide OnOutput;
    HandledAlone(t2, DisconnectFromTv, told);
    LossRuns(b, ask, HandleUpdate(read), HandleUpdate(told));
  }

  /** Main result: a disconnect asked for while Communicating has the handler told to shut
      down, with no reconnect prepared; once the handler's last word is read and handled,
      the manager is at rest: no target, no handler, no request left, and nothing dialled. */
  lemma DisconnectIsServed(b: Settled, asked: Env, read: Env, told: Env, last: Env, again: Env, done: Env)
    requires Inv(b) && b.pend == [] && b.fsm.Communicating? && told.answer.sent
    requires Plausible(b.m, asked) && Plausible(b.m, read) && Plausible(b.m, told)
    requires Plausible(b.m, last) && Plausible(b.m, again) && Plausible(b.m, done)
    ensures var steps := AskedSteps(CallerDisconnect, asked, read, told);
      && CanRun(b, steps) && NeverDials(b, steps)
      && b.m.ws.sender.Some?
      && var t := RunFrom(b, steps);
      && t == Settled(b.m.(manualDisconnect := true, status := Disconnecting(b.fsm.url),
                           ws := b.m.ws.(log := b.m.ws.log + [Handed(b.m.ws.sender.value, ShutDown)])),
                      Disconnecting(b.fsm.url), [])
      && CanRun(t, LastSteps(last, again)) && NeverDials(t, LastSteps(last, again))
      && var e := RunFrom(t, LastSteps(last, again));
      && CanStep(e, HandleUpdate(done)) && !Dials(e, HandleUpdate(done))
      && var f := After(e, HandleUpdate(done));
      && f.fsm == Disconnected && f.pend == [] && f.m.reconnect.flow == Inactive
      && f.m.connection.None? && f.m.ws.joinHandle.None? && !f.m.manualDisconnect && !f.m.initialized
  {
    UpFacts(b);
    DisconnectIsTold(b, asked, read, told);
    var t := RunFrom(b, AskedSteps(CallerDisconnect, asked, read, told));
    assert b.m.running;
    hide Inv, After, CanStep, Dials, CanRun, RunFrom, NeverDials;
    DisconnectRests(t, last, again, done);
  }

  lemma DisconnectRests(b: Settled, last: Env, again: Env, done: Env)
    requires b.fsm.Disconnecting? && b.pend == [] && b.m.running && b.m.link == Open && b.m.outbox == []
    requires b.m.ws.receiver.Some? && b.m.reconnect.flow == Inactive
    requires Plausible(b.m, last) && Plausible(b.m, again) && Plausible(b.m, done)
    ensures var steps := LastSteps(last, again);
      && CanRun(b, steps) && NeverDials(b, steps)
      && var e := RunFrom(b, steps);
      && CanStep(e, HandleUpdate(done)) && !Dials(e, HandleUpdate(done))
      && var f := After(e, HandleUpdate(done));
      && f.fsm == Disconnected && f.pend == [] && f.m.reconnect.flow == Inactive
      && f.m.connection.None? && f.m.ws.joinHandle.None? && !f.m.manualDisconnect && !f.m.initialized
  {
    LastWordIsRead(b, last, again);
    var hear := HandleExternal(FromWs(WsDisconnected), last);
    var e := After(After(b, hear), HandleUpdate(again));
    hide After;
    LastRuns(b, hear, HandleUpdate(again));
    CompletionIsQuiet(e.m, done);
    hide OnOutput;
    HandledAlone(e, HandleSuccessfulDisconnect, done);
  }

  lemma CompletionIsQuiet(m: Manager, env: Env)
    requires m.reconnect.flow == Inactive && m.outbox == []
    ensures var r := OnOutput(m, HandleSuccessfulDisconnect, env);
      && r.outbox == [] && r.reconnect.flow == Inactive
      && r.connection.None? && r.ws.joinHandle.None? && !r.manualDisconnect && !r.initialized
  {
    hide InitiateReconnect;
  }
}
