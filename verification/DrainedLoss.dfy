/** When a lost connection is dialled again. */
module DrainedLoss {
  import opened StateMachine
  import opened ManagerModel
  import opened ManagerFacts
  import opened Async
  import opened Drained
  import opened DrainedInvariant
  import opened DrainedFinality
  import opened DrainedSchedule
  import opened ReconnectHistory
  import opened ReconnectWait
  import Backoff

  /** A connection is up. */
  predicate Up(s: State) {
    s.Connected? || s.Pairing? || s.Initializing? || s.Communicating?
  }

  /** The handler says that the connection is lost. */
  predicate IsLoss(u: WsUpdate) {
    u.WsServerClosedConnection? || u.WsMessageReadError?
  }

  /** The loss is read, the machine's new state is read, and the handler is told. */
  function LossSteps(u: WsUpdate, lost: Env, read: Env, told: Env): seq<Step> {
    [HandleExternal(FromWs(u), lost), HandleUpdate(read), HandleUpdate(told)]
  }

  /** The handler's last word is read, and the machine's new state again. */
  function LastSteps(last: Env, read: Env): seq<Step> {
    [HandleExternal(FromWs(WsDisconnected), last), HandleUpdate(read)]
  }

  function Preparing(m: Manager, env: Env): Manager {
    OptionallyPrepareForReconnect(m, env.firstLoad, env.secondLoad)
  }

  lemma UpFacts(b: Settled)
    requires Inv(b) && b.pend == [] && Up(b.fsm)
    ensures Common(b.m) && b.m.outbox == [] && b.m.status == b.fsm && b.m.reconnect.flow == Inactive
    ensures b.m.ws.sender.Some? && b.m.ws.receiver.Some? && b.m.ws.joinHandle.Some?
    ensures b.m.connection.Some? && b.m.connection.value.wsUrl.Some?
  {
  }

  lemma ErrorEmits(s: State)
    requires Up(s)
    ensures Next(s, Error) == Disconnecting(s.url)
    ensures Emit(s, Error) == [NewState(Disconnecting(s.url)), Emitted(DisconnectFromTv)]
  {
  }

  /** The machine's new state is read, and the output left. */
  lemma StateIsRead(b: Settled, s: State, o: Output, read: Env)
    requires b.pend == [NewState(s), Emitted(o)] && b.m.running && b.m.outbox == [] && Plausible(b.m, read)
    ensures CanStep(b, HandleUpdate(read)) && !Dials(b, HandleUpdate(read))
    ensures After(b, HandleUpdate(read)) == Settled(b.m.(status := s), b.fsm, [Emitted(o)])
  {
    hide Plausible;
    NothingSent(b.m.(status := s), b.fsm, [Emitted(o)]);
  }

  lemma LossIsRead(b: Settled, u: WsUpdate, lost: Env, read: Env)
    requires Inv(b) && b.pend == [] && Up(b.fsm) && IsLoss(u) && Plausible(b.m, lost) && Plausible(b.m, read)
    ensures var lose := HandleExternal(FromWs(u), lost);
      && CanStep(b, lose) && !Dials(b, lose)
      && var t := After(b, lose);
      && CanStep(t, HandleUpdate(read)) && !Dials(t, HandleUpdate(read))
      && After(t, HandleUpdate(read)) == Settled(
           Preparing(b.m, lost).(status := Disconnecting(b.fsm.url)), Disconnecting(b.fsm.url), [Emitted(DisconnectFromTv)])
  {
    UpFacts(b);
    var fsm := Disconnecting(b.fsm.url);
    var r := Preparing(b.m, lost);
    LossIsHeard(b.m, u, lost);
    hide Inv, OnWs, Preparing, Plausible;
    RunOne(b.fsm, Error);
    ErrorEmits(b.fsm);
    hide Emit, Next, Up;
    assert [] + [NewState(fsm), Emitted(DisconnectFromTv)] == [NewState(fsm), Emitted(DisconnectFromTv)];
    var t := Settled(r, fsm, [NewState(fsm), Emitted(DisconnectFromTv)]);
    assert After(b, HandleExternal(FromWs(u), lost)) == t;
    hide RunUpdates, RunState, After;
    StateIsRead(t, fsm, DisconnectFromTv, read);
  }

  lemma LossIsHeard(m: Manager, u: WsUpdate, env: Env)
    requires IsLoss(u) && m.link == Open && m.outbox == []
    ensures OnWs(m, u, env) == Preparing(m, env).(outbox := [Error])
    ensures var r := Preparing(m, env);
      r.checker == m.checker && r.running == m.running && r.outbox == [] && r.link == Open
  {
    PreparedFrame(m, env);
    hide OptionallyPrepareForReconnect;
  }

  /** Before the handler is told, the flow is prepared once more: what it is then tells
      of the TV as it was then. */
  lemma PreparedAgain(m: Manager, lost: Env, told: Env)
    requires m.reconnect.flow == Inactive
    ensures var r := Preparing(Preparing(m, lost), told);
      && r == m.(reconnect := r.reconnect)
      && (r.reconnect.flow == Active <==> !m.manualDisconnect && AutoReconnect(m) && SeesTv(m, told))
      && (r.reconnect.flow == Active ==> r.reconnect.attempts == 0)
      && Waits(r.reconnect.marks) == Waits(m.reconnect.marks)
  {
    var m1 := Preparing(m, lost);
    if !m.manualDisconnect {
      AnnounceWaits(m.reconnect, m1.reconnect.flow);
      AnnounceWaits(m1.reconnect, Preparing(m1, told).reconnect.flow);
    }
    hide Waits;
  }

  lemma HandlerIsTold(m: Manager, env: Env)
    requires m.ws.joinHandle.Some? && m.ws.sender.Some? && m.outbox == [] && m.link == Open
    ensures var r := OnOutput(m, DisconnectFromTv, env);
      if env.answer.sent then r == HandToWs(Preparing(m, env), ShutDown)
      else r.outbox == [Reset]
  {
  }

  lemma ResetEmits(r: Manager, fsm: State)
    requires r.outbox == [Reset] && fsm.Disconnecting?
    ensures Deliver(r, fsm, []) == Settled(r.(outbox := []), Disconnected, [NewState(Disconnected)])
    ensures NoConnect(r.outbox)
  {
    RunOne(fsm, Reset);
    assert [] + Emit(fsm, Reset) == [NewState(Disconnected)];
  }

  lemma LastWordIsRead(b: Settled, last: Env, read: Env)
    requires b.fsm.Disconnecting? && b.pend == [] && b.m.running && b.m.link == Open && b.m.outbox == []
    requires b.m.ws.receiver.Some? && Plausible(b.m, last) && Plausible(b.m, read)
    ensures var hear := HandleExternal(FromWs(WsDisconnected), last);
      && CanStep(b, hear) && !Dials(b, hear)
      && var t := After(b, hear);
      && CanStep(t, HandleUpdate(read)) && !Dials(t, HandleUpdate(read))
      && After(t, HandleUpdate(read)) ==
           Settled(b.m.(status := Disconnected), Disconnected, [Emitted(HandleSuccessfulDisconnect)])
  {
    RunOne(b.fsm, DisconnectionComplete);
    assert [] + Emit(b.fsm, DisconnectionComplete) == [NewState(Disconnected), Emitted(HandleSuccessfulDisconnect)];
    assert Reacted(b, HandleExternal(FromWs(WsDisconnected), last)) == b.m.(outbox := [DisconnectionComplete]);
    StateIsRead(After(b, HandleExternal(FromWs(WsDisconnected), last)), Disconnected, HandleSuccessfulDisconnect, read);
  }

  /** What handling the completed disconnect sends. */
  lemma CompletionSends(m: Manager, env: Env)
    requires m.outbox == [] && m.link == Open && m.status == Disconnected
    requires m.connection.Some? && m.connection.value.wsUrl.Some?
    ensures HasConnect(OnOutput(m, HandleSuccessfulDisconnect, env).outbox) <==>
      && m.reconnect.flow == Active && !m.pairing && MayReconnect(m, env)
      && KnowsUrl(m.wsUrl, env.answer.disk)
  {
    var r := InitializeManagerState(AwaitHandler(m.(manualDisconnect := false)), env.answer.disk);
    if r.reconnect.flow == Active && !r.pairing {
      ReconnectDials(r, env);
    }
    hide InitiateReconnect;
  }

  lemma DialsIsConnecting(b: Settled, o: Output, env: Env)
    requires b.m.running && Plausible(b.m, env) && b.pend == [Emitted(o)]
    ensures CanStep(b, HandleUpdate(env))
    ensures Dials(b, HandleUpdate(env)) <==> HasConnect(OnOutput(b.m, o, env).outbox)
  {
    hide OnOutput;
  }

  lemma LossRuns(b: Settled, x: Step, y: Step, z: Step)
    requires CanStep(b, x) && CanStep(After(b, x), y) && CanStep(After(After(b, x), y), z)
    requires !Dials(b, x) && !Dials(After(b, x), y) && !Dials(After(After(b, x), y), z)
    ensures CanRun(b, [x, y, z]) && NeverDials(b, [x, y, z])
    ensures RunFrom(b, [x, y, z]) == After(After(After(b, x), y), z)
  {
    hide CanStep, After, Dials;
    var t := After(After(After(b, x), y), z);
    assert [x, y, z][1..] == [y, z] && [y, z][1..] == [z] && [z][1..] == [];
    assert CanRun(t, []) && NeverDials(t, []) && RunFrom(t, []) == t;
    assert CanRun(After(After(b, x), y), [z]) && CanRun(After(b, x), [y, z]);
    assert NeverDials(After(After(b, x), y), [z]) && NeverDials(After(b, x), [y, z]);
    assert RunFrom(After(After(b, x), y), [z]) == t && RunFrom(After(b, x), [y, z]) == t;
  }

  lemma LastRuns(b: Settled, x: Step, y: Step)
    requires CanStep(b, x) && CanStep(After(b, x), y) && !Dials(b, x) && !Dials(After(b, x), y)
    ensures CanRun(b, [x, y]) && NeverDials(b, [x, y]) && RunFrom(b, [x, y]) == After(After(b, x), y)
  {
    hide CanStep, After, Dials;
    var t := After(After(b, x), y);
    assert [x, y][1..] == [y] && [y][1..] == [];
    assert CanRun(t, []) && NeverDials(t, []) && RunFrom(t, []) == t;
    assert CanRun(After(b, x), [y]) && NeverDials(After(b, x), [y]) && RunFrom(After(b, x), [y]) == t;
  }

  /** The run to where the handler has been told, or could not be. */
  lemma HandlerTold(b: Settled, u: WsUpdate, lost: Env, read: Env, told: Env)
    requires Inv(b) && b.pend == [] && Up(b.fsm) && IsLoss(u)
    requires Plausible(b.m, lost) && Plausible(b.m, read) && Plausible(b.m, told)
    ensures var steps := LossSteps(u, lost, read, told);
      && CanRun(b, steps) && NeverDials(b, steps)
      && var t := RunFrom(b, steps);
      && (told.answer.sent ==>
            t == Settled(HandToWs(Preparing(Preparing(b.m, lost).(status := Disconnecting(b.fsm.url)), told), ShutDown),
                         Disconnecting(b.fsm.url), []))
      && (!told.answer.sent ==> t.fsm == Disconnected && t.pend == [NewState(Disconnected)])
  {
    UpFacts(b);
    LossIsRead(b, u, lost, read);
    var lose := HandleExternal(FromWs(u), lost);
    var t := After(After(b, lose), HandleUpdate(read));
    PreparedFrame(b.m, lost);
    HandlerIsTold(t.m, told);
    PreparedFrame(t.m, told);
    hide Inv, OnOutput, OptionallyPrepareForReconnect;
    var r := OnOutput(t.m, DisconnectFromTv, told);
    if told.answer.sent {
      NothingSent(r, t.fsm, []);
    } else {
      ResetEmits(r, t.fsm);
    }
    assert t.pend[1..] == [];
    LossRuns(b, lose, HandleUpdate(read), HandleUpdate(told));
  }

  lemma LastWordDecides(b: Settled, last: Env, again: Env, done: Env)
    requires b.fsm.Disconnecting? && b.pend == [] && b.m.running && b.m.link == Open && b.m.outbox == []
    requires b.m.ws.receiver.Some? && b.m.connection.Some? && b.m.connection.value.wsUrl.Some?
    requires Plausible(b.m, last) && Plausible(b.m, again) && Plausible(b.m, done)
    ensures var steps := LastSteps(last, again);
      && CanRun(b, steps) && NeverDials(b, steps)
      && var e := RunFrom(b, steps);
      && CanStep(e, HandleUpdate(done))
      && (Dials(e, HandleUpdate(done)) <==>
            && b.m.reconnect.flow == Active && !b.m.pairing && MayReconnect(b.m, done)
            && KnowsUrl(b.m.wsUrl, done.answer.disk))
      && (Dials(e, HandleUpdate(done)) ==>
            Waits(After(e, HandleUpdate(done)).m.reconnect.marks) ==
              Waits(b.m.reconnect.marks) + [Backoff.Delay(b.m.reconnect.attempts)])
  {
    LastWordIsRead(b, last, again);
    var hear := HandleExternal(FromWs(WsDisconnected), last);
    var e := After(After(b, hear), HandleUpdate(again));
    hide After, OnOutput;
    LastRuns(b, hear, HandleUpdate(again));
    CompletionSends(e.m, done);
    DialsIsConnecting(e, HandleSuccessfulDisconnect, done);
    hide Waits, Backoff.Delay;
    if Dials(e, HandleUpdate(done)) {
      CompletionWaits(e.m, done);
      AfterHandling(e, HandleSuccessfulDisconnect, done);
    }
  }

  lemma AfterHandling(b: Settled, o: Output, env: Env)
    requires CanStep(b, HandleUpdate(env)) && b.pend == [Emitted(o)]
    ensures After(b, HandleUpdate(env)).m == OnOutput(b.m, o, env).(outbox := [])
  {
    hide OnOutput;
  }

  /** The wait before the connection is dialled again. */
  lemma CompletionWaits(m: Manager, env: Env)
    requires m.link == Open && m.connection.Some? && m.reconnect.flow == Active && !m.pairing
    requires MayReconnect(m, env) && KnowsUrl(m.wsUrl, env.answer.disk)
    ensures Waits(OnOutput(m, HandleSuccessfulDisconnect, env).reconnect.marks) ==
      Waits(m.reconnect.marks) + [Backoff.Delay(m.reconnect.attempts)]
  {
    var r := InitializeManagerState(AwaitHandler(m.(manualDisconnect := false)), env.answer.disk);
    assert r.reconnect == m.reconnect && r.connection == m.connection && r.wsUrl.Some? && !r.pairing && r.link == Open;
    WaitIsRecorded(r, false, env);
    hide InitiateReconnect, Waits, Backoff.Delay, Announcements;
  }

  /** The manager that has told its handler. */
  lemma ToldFacts(m: Manager, s: State, lost: Env, told: Env)
    requires m.reconnect.flow == Inactive
    ensures var r := HandToWs(Preparing(Preparing(m, lost).(status := s), told), ShutDown);
      && r == m.(status := s, reconnect := r.reconnect, ws := r.ws) && r.ws.receiver == m.ws.receiver
      && (r.reconnect.flow == Active <==> !m.manualDisconnect && AutoReconnect(m) && SeesTv(m, told))
      && (r.reconnect.flow == Active ==> r.reconnect.attempts == 0)
      && Waits(r.reconnect.marks) == Waits(m.reconnect.marks)
  {
    PreparedFrame(m, lost);
    assert Preparing(m, lost).(status := s) == Preparing(m.(status := s), lost);
    PreparedAgain(m.(status := s), lost, told);
    hide OptionallyPrepareForReconnect;
  }

  /** Main result: a connection that is lost while up is dialled again, once the handler
      has taken the shutdown and its last word is read, if and only if no disconnect was
      asked for, the target auto-reconnects, the TV is seen as the handler is told (or
      the checker cannot tell), no pairing is under way, the attempt is not prevented,
      and a URL is there after the import; and then after one wait of 250 ms. When the
      shutdown is refused nothing is dialled, and the machine is Disconnected. */
  lemma LostConnectionDecision(b: Settled, u: WsUpdate, lost: Env, read: Env, told: Env, last: Env, again: Env, done: Env)
    requires Inv(b) && b.pend == [] && Up(b.fsm) && IsLoss(u)
    requires Plausible(b.m, lost) && Plausible(b.m, read) && Plausible(b.m, told)
    requires Plausible(b.m, last) && Plausible(b.m, again) && Plausible(b.m, done)
    ensures
      var loss := LossSteps(u, lost, read, told);
      && CanRun(b, loss) && NeverDials(b, loss)
      && var t := RunFrom(b, loss);
      && (!told.answer.sent ==> t.fsm == Disconnected && t.pend == [NewState(Disconnected)])
      && (told.answer.sent ==>
            && CanRun(t, LastSteps(last, again)) && NeverDials(t, LastSteps(last, again))
            && var e := RunFrom(t, LastSteps(last, again));
            && CanStep(e, HandleUpdate(done))
            && (Dials(e, HandleUpdate(done)) <==>
                  && !b.m.manualDisconnect && AutoReconnect(b.m) && SeesTv(b.m, told) && !b.m.pairing
                  && MayReconnect(b.m, done) && KnowsUrl(b.m.wsUrl, done.answer.disk))
            && (Dials(e, HandleUpdate(done)) ==>
                  Waits(After(e, HandleUpdate(done)).m.reconnect.marks) == Waits(b.m.reconnect.marks) + [250]))
  {
    HandlerTold(b, u, lost, read, told);
    if told.answer.sent {
      UpFacts(b);
      ToldFacts(b.m, Disconnecting(b.fsm.url), lost, told);
      Backoff.FirstDelays();
      hide Inv, RunFrom, CanRun, NeverDials, Preparing, HandToWs, Dials, CanStep, Waits, Backoff.Delay, After;
      LastWordDecides(RunFrom(b, LossSteps(u, lost, read, told)), last, again, done);
    }
  }
}
