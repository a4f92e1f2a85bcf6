/** What every run to completion shows whenever its queues are empty. */
module DrainedProperties {
  import opened Wrappers
  import opened StateMachine
  import opened ManagerModel
  import opened ManagerFacts
  import opened Async
  import opened Drained
  import opened DrainedInvariant
  import opened DrainedSteps

  lemma StartSettles(created: Disk, started: Disk, operational: bool)
    ensures Inv(Settle(Start(created, started, operational)))
  {
  }

  /** A drained state that some run to completion ends in. */
  ghost predicate Reached(s: System) {
    exists created, started, operational, steps ::
      && Possible(Start(created, started, operational), steps)
      && RunsToCompletion(Start(created, started, operational), steps)
      && s == Run(Start(created, started, operational), steps)
  }

  lemma ReachedSettles(s: System)
    requires Reached(s)
    ensures Inv(Settle(s))
  {
    hide Inv, Start, Settle;
    var created, started, operational, steps :|
      && Possible(Start(created, started, operational), steps)
      && RunsToCompletion(Start(created, started, operational), steps)
      && s == Run(Start(created, started, operational), steps);
    StartSettles(created, started, operational);
    RunsSettle(Start(created, started, operational), steps);
    RunSettles(Settle(Start(created, started, operational)), ManagerSteps(steps));
  }

  lemma DrainedRests(s: System)
    requires Reached(s) && IsDrained(s)
    ensures Resting(s.m, s.fsm)
  {
    ReachedSettles(s);
    assert Settle(s) == Settled(s.m, s.fsm, []);
  }

  /** Main result: whenever the queues are empty, no handler is owed an await if
      and only if the machine is Disconnected; away from it, both channel ends and
      the handle belong to the handler started last, for the URL the machine and
      the target agree on. */
  lemma HandlerLifecycle(s: System)
    requires Reached(s) && IsDrained(s)
    ensures s.m.status == s.fsm && Real(s.fsm)
    ensures s.fsm == Disconnected <==> s.m.ws.joinHandle == None
    ensures s.fsm != Disconnected ==>
      && OwnsHandler(s.m.ws, s.fsm.url)
      && s.m.connection.Some? && s.m.connection.value.wsUrl == Some(s.fsm.url)
  {
    DrainedRests(s);
  }

  /** Main result: at every point of a run, a handler is started only when none is
      left to await. */
  lemma NoHandlerIsOverwritten(s: System, env: Env)
    requires Reached(s) && s.m.running
    requires s.pending != [] && s.pending[0].Emitted? && s.pending[0].output.ConnectToTv?
    ensures s.m.ws.joinHandle == None
    ensures OwnsHandler(OnUpdate(s.m, s.pending[0], env).ws, s.pending[0].output.url)
  {
    ReachedSettles(s);
    LoneOutput(s.m.status, Settle(s).pend);
  }

  /** Main result: a message left over from an earlier handler can be read only
      while the machine is Disconnected, and then leaves it there; anything read
      in another state comes from the handler of the current connection. */
  lemma StaleMessagesAdvanceNothing(s: System, w: WsUpdate, env: Env)
    requires Reached(s) && IsDrained(s) && Enabled(s, HandleExternal(FromWs(w), env))
    ensures s.m.ws.receiver != Some(|s.m.ws.started| - 1) ==> s.fsm == Disconnected
    ensures s.fsm == Disconnected ==>
      var b := After(Settle(s), HandleExternal(FromWs(w), env));
      b.fsm == Disconnected && forall u | u in b.pend :: u.TransitionError?
  {
    hide OnWs, Transition, OutputOf;
    DrainedRests(s);
    if s.fsm == Disconnected {
      var sent := OnWs(s.m, w, env).outbox;
      assert Settle(s) == Settled(s.m, s.fsm, []);
      WsSendsProgress(s.m, w, env);
      if sent != [] {
        assert sent == [sent[0]] && sent[0] in sent;
        DisconnectedRejects(sent[0]);
        RunOne(Disconnected, sent[0]);
      }
    }
  }

  /** Sends at most one input, and never one that Disconnected accepts. */
  predicate NothingForDisconnected(sent: seq<Input>) {
    |sent| <= 1 && forall i | i in sent :: !i.Connect? && !i.Reset?
  }

  lemma DisconnectedRejects(i: Input)
    requires !i.Connect? && !i.Reset?
    ensures Transition(Disconnected, i) == None
  {
  }

  lemma WsSendsProgress(m: Manager, w: WsUpdate, env: Env)
    requires m.link == Open && m.outbox == []
    ensures NothingForDisconnected(OnWs(m, w, env).outbox)
  {
    hide OptionallyPrepareForReconnect, OnResponse;
    match w
    case WsPayload(r) => ResponseSendsProgress(m, r);
    case WsConnectError => PreparingSendsNothing(m, env);
    case WsMessageReadError => PreparingSendsNothing(m, env);
    case WsServerClosedConnection => PreparingSendsNothing(m, env);
    case WsConnectionOk(ok) => assert ok ==> OnWs(m, w, env) == m;
    case WsIdle =>
    case WsConnected =>
    case WsDisconnected =>
  }

  lemma ResponseSendsProgress(m: Manager, r: TvResponse)
    requires m.link == Open && m.outbox == []
    ensures NothingForDisconnected(OnResponse(m, r).outbox)
  {
    hide OnResponse;
    ResponseSendsOne(m, r);
  }

  lemma PreparingSendsNothing(m: Manager, env: Env)
    ensures var r := OptionallyPrepareForReconnect(m, env.firstLoad, env.secondLoad);
      r.outbox == m.outbox && r.link == m.link
  {
  }

  /** Main result: once a connection is established no reconnect flow is under way,
      and the pairing flag follows the machine. */
  lemma FlowAndPairingFollowMachine(s: System)
    requires Reached(s) && IsDrained(s)
    ensures s.fsm.Connected? || s.fsm.Pairing? || s.fsm.Initializing? || s.fsm.Communicating? ==>
      s.m.reconnect.flow == Inactive
    ensures s.fsm.Pairing? ==> s.m.pairing
    ensures s.fsm.Initializing? || s.fsm.Communicating? ==> !s.m.pairing
  {
    DrainedRests(s);
  }
}
