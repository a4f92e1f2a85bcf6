/** When the wired system can dial again unasked: the runs that do. */
module WiredDialling {
  import opened Wrappers
  import opened StateMachine
  import opened ManagerModel
  import opened ManagerFacts
  import opened Async
  import opened Drained
  import opened DrainedInvariant
  import opened DrainedSteps
  import opened DrainedFinality
  import opened HandlerLine
  import opened Wired
  import opened WiredSteps
  import opened WiredFinality
  import opened DrainedLoss
  import DS = DrainedSchedule

  lemma DialsNow(w: Wired, mv: Move, avoiding: Option<Output>)
    requires CanMove(w, mv) && Unasked(w, mv, avoiding) && DialsBy(w, mv)
    ensures CanDial(w, avoiding)
  {
    hide CanMove, AfterMove, Unasked, DialsBy;
    assert DialsUnasked(w, [mv], avoiding);
  }

  lemma DialsLater(w: Wired, mv: Move, avoiding: Option<Output>)
    requires CanMove(w, mv) && Unasked(w, mv, avoiding) && CanDial(AfterMove(w, mv), avoiding)
    ensures CanDial(w, avoiding)
  {
    hide CanMove, AfterMove, Unasked, DialsBy;
    var rest :| DialsUnasked(AfterMove(w, mv), rest, avoiding);
    var mvs := [mv] + rest;
    assert mvs[1..] == rest;
    assert DialsUnasked(w, mvs, avoiding);
  }

  // ------------------------------------------------------------- the environment

  const TV_URL: Url := "ws://192.168.0.7:3000/"

  /** An environment in which the network and the file stay as they are; one in which
      sends fail unless `sent`. */
  function EnvWith(seen: bool, sent: bool, disk: Disk): Env {
    var a := Answer(sent, disk);
    Env(seen, seen, seen, a, disk, [a, a, a, a, a, a], [RetryDue])
  }

  /** The TV is out of sight and no handler takes anything. */
  const FAR: Env := EnvWith(false, false, Unreadable)

  /** The TV is out of sight, and the handler takes everything. */
  const TAKEN: Env := EnvWith(false, true, Unreadable)

  /** The TV is in sight if pings can tell, and the file holds a URL. */
  function Near(m: Manager): Env {
    EnvWith(Pings(m), false, Stored(Some(TV_URL)))
  }

  /** The rest of a conversation, said in a hurry. */
  function Goodbye(stage: Stage): seq<WsUpdate> {
    match stage
    case Starting => [WsIdle, WsConnectError]
    case Dialling => [WsConnectError]
    case Talking => [WsDisconnected]
    case Failing => [WsDisconnected]
    case Ended => []
  }

  lemma GoodbyeEnds(stage: Stage)
    ensures SaysAll(stage, Goodbye(stage)) == Some(Ended)
  {
    assert SaysAll(Dialling, [WsConnectError]) == Some(Ended);
    if stage.Starting? {
      assert Goodbye(stage)[1..] == [WsConnectError];
    }
  }

  lemma EnvsArePlausible(m: Manager)
    ensures Plausible(m, FAR) && Refuses(FAR)
    ensures Plausible(m, Near(m)) && Refuses(Near(m))
  {
  }

  // ------------------------------------------------------- at rest, Disconnected

  /** At rest with an unawaited handler behind it. */
  predicate AtRest(w: Wired) {
    WiredInv(w) && w.b.pend == [] && w.b.fsm == Disconnected
  }

  lemma RestFacts(w: Wired)
    requires AtRest(w)
    ensures Common(w.b.m) && w.b.m.outbox == [] && w.b.m.status == Disconnected
    ensures w.b.m.ws.joinHandle == None && w.line.stage == Ended && !w.line.open && Coherent(w.line)
    ensures w.b.m.connection.Some? ==> HasChannels(w.b.m.ws)
  {
  }

  /** A step from rest that awaits no one. */
  lemma RestTakes(w: Wired, ev: External, env: Env, avoiding: Option<Output>)
    requires AtRest(w) && Plausible(w.b.m, env) && Refuses(env)
    requires ev != FromCaller(ShutDownManager) && !AcceptsRequest(w.b.m, ev)
    requires ev.FromNetwork? ==> Pings(w.b.m)
    requires ev.FromWs? ==> w.b.m.ws.receiver.Some? && w.line.inbox != [] && w.line.inbox[0] == ev.update
    ensures CanMove(w, Take(HandleExternal(ev, env), [])) && Unasked(w, Take(HandleExternal(ev, env), []), avoiding)
  {
    RestFacts(w);
    hide OnExternal, AcceptsRequest, WiredInv, Refuses, Plausible;
  }

  /** A lone update that is no output is read, and nothing else happens. */
  lemma SkipUpdate(w: Wired, avoiding: Option<Output>)
    requires WiredInv(w) && |w.b.pend| == 1 && !w.b.pend[0].Emitted?
    ensures var t := AfterMove(w, Take(HandleUpdate(FAR), []));
      && CanMove(w, Take(HandleUpdate(FAR), [])) && Unasked(w, Take(HandleUpdate(FAR), []), avoiding)
      && WiredInv(t) && t.b.pend == [] && t.b.fsm == w.b.fsm && t.line == w.line
      && t.b.m == w.b.m.(status := t.b.m.status)
  {
    EnvsArePlausible(w.b.m);
    assert CanMove(w, Take(HandleUpdate(FAR), []));
    MoveKeeps(w, Take(HandleUpdate(FAR), []));
    NothingSent(OnUpdate(w.b.m, w.b.pend[0], FAR), w.b.fsm, w.b.pend[1..]);
    assert w.line.inbox + [] == w.line.inbox;
  }

  // ------------------------------------------------------------ a TV that shows up

  predicate Waiting(w: Wired) {
    && AtRest(w) && Pings(w.b.m)
    && w.b.m.reconnect.flow == WaitingForTvOnNetwork && !w.b.m.checker.wasOnNetwork
  }

  lemma TvShowsUp(w: Wired, avoiding: Option<Output>)
    requires Waiting(w) && w.b.m.wsUrl.Some?
    ensures CanDial(w, avoiding)
  {
    var env := Near(w.b.m);
    EnvsArePlausible(w.b.m);
    RestTakes(w, FromNetwork(true), env, avoiding);
    RestFacts(w);
    assert Connect(w.b.m.connection.value.wsUrl.value) in Reacted(w.b, HandleExternal(FromNetwork(true), env)).outbox;
    hide CanDial, CanMove, Unasked, WiredInv, Reacted;
    DialsNow(w, Take(HandleExternal(FromNetwork(true), env), []), avoiding);
  }

  /** A connection test that no handler takes forces a reset, which reads a URL. */
  lemma FailedTest(w: Wired)
    requires Waiting(w) && w.b.m.initialized
    ensures var step := HandleExternal(FromCaller(CallerTestConnection), Near(w.b.m));
      var t := After(w.b, step);
      && t.pend == [NewState(Disconnected)] && t.fsm == Disconnected
      && t.m.reconnect == w.b.m.reconnect && t.m.wsUrl.Some? && t.m.checker == w.b.m.checker
  {
    RestFacts(w);
    RunOne(Disconnected, Reset);
    var m1 := OnCaller(w.b.m, CallerTestConnection, Near(w.b.m));
    assert m1.outbox == [Reset];
    assert [] + [NewState(Disconnected)] == [NewState(Disconnected)];
  }

  lemma TvShowsUpAfterTest(w: Wired, avoiding: Option<Output>)
    requires Waiting(w) && w.b.m.initialized
    ensures CanDial(w, avoiding)
  {
    var step := HandleExternal(FromCaller(CallerTestConnection), Near(w.b.m));
    EnvsArePlausible(w.b.m);
    RestTakes(w, FromCaller(CallerTestConnection), Near(w.b.m), avoiding);
    FailedTest(w);
    var t := AfterMove(w, Take(step, []));
    MoveKeeps(w, Take(step, []));
    SkipUpdate(t, avoiding);
    hide WiredInv, CanDial, CanMove, Unasked;
    TvShowsUp(AfterMove(t, Take(HandleUpdate(FAR), [])), avoiding);
    DialsLater(t, Take(HandleUpdate(FAR), []), avoiding);
    DialsLater(w, Take(step, []), avoiding);
  }

  /** A message left over by the handler is read while waiting. */
  lemma ReadsLeftover(w: Wired)
    requires Waiting(w) && w.line.inbox != [] && w.b.m.ws.receiver.Some? && AutoReconnect(w.b.m)
    ensures var t := AfterMove(w, Take(HandleExternal(FromWs(w.line.inbox[0]), FAR), []));
      && CanMove(w, Take(HandleExternal(FromWs(w.line.inbox[0]), FAR), []))
      && WiredInv(t) && t.b.fsm == Disconnected && |t.b.pend| <= 1 && (t.b.pend != [] ==> !t.b.pend[0].Emitted?)
      && t.b.m.reconnect.flow == WaitingForTvOnNetwork && t.b.m.checker == w.b.m.checker
      && t.b.m.connection == w.b.m.connection && t.b.m.ws == w.b.m.ws
      && t.line.inbox == w.line.inbox[1..]
      && (w.line.inbox[0] == WsPayload(Volume) ==> t.b.m.initialized)
  {
    var m, u := w.b.m, w.line.inbox[0];
    EnvsArePlausible(m);
    RestFacts(w);
    RestTakes(w, FromWs(u), FAR, None);
    MoveKeeps(w, Take(HandleExternal(FromWs(u), FAR), []));
    ReadingIsCoherent(w.line);
    HearingSends(m, u, FAR);
    LeftoverKeeps(m, u);
    var r := OnWs(m, u, FAR);
    assert w.line.inbox[1..] + [] == w.line.inbox[1..];
    hide OnWs, WiredInv;
    if r.outbox == [] {
      NothingSent(r, Disconnected, []);
    } else {
      assert r.outbox == [r.outbox[0]];
      RunOne(Disconnected, r.outbox[0]);
      assert [] + Emit(Disconnected, r.outbox[0]) == [TransitionError(r.outbox[0], Disconnected)];
    }
  }

  lemma LeftoverKeeps(m: Manager, u: WsUpdate)
    requires m.link == Open && m.outbox == [] && AutoReconnect(m) && m.checker.operational
    requires m.reconnect.flow == WaitingForTvOnNetwork
    ensures var r := OnWs(m, u, FAR);
      && r.reconnect.flow == WaitingForTvOnNetwork && r.checker == m.checker
      && r.connection == m.connection && r.ws == m.ws
      && (u == WsPayload(Volume) ==> r.initialized)
  {
    if u.WsPayload? {
      ResponseSendsOne(m, u.response);
      VolumeInitializes(m);
    }
    hide OnResponse;
  }

  lemma VolumeInitializes(m: Manager)
    requires m.link == Open
    ensures OnResponse(m, Volume).initialized
  {
  }

  lemma {:induction false} WaitingDials(w: Wired, avoiding: Option<Output>)
    requires Waiting(w) && ComesBack(w.b.m, w.line.inbox)
    ensures CanDial(w, avoiding)
    decreases |w.line.inbox|
  {
    if w.b.m.wsUrl.Some? {
      TvShowsUp(w, avoiding);
    } else if w.b.m.initialized {
      TvShowsUpAfterTest(w, avoiding);
    } else {
      RestFacts(w);
      var u := w.line.inbox[0];
      var mv := Take(HandleExternal(FromWs(u), FAR), []);
      assert WsPayload(Volume) in w.line.inbox;
      ReadsLeftover(w);
      var t := AfterMove(w, mv);
      assert u != WsPayload(Volume) ==> WsPayload(Volume) in w.line.inbox[1..];
      hide WiredInv, CanDial, CanMove;
      if t.b.pend == [] {
        WaitingDials(t, avoiding);
      } else {
        SkipUpdate(t, avoiding);
        WaitingDials(AfterMove(t, Take(HandleUpdate(FAR), [])), avoiding);
        DialsLater(t, Take(HandleUpdate(FAR), []), avoiding);
      }
      DialsLater(w, mv, avoiding);
    }
  }

  /** The on-network bit goes on and off once: from rest this leaves an
      auto-reconnecting target waiting. */
  lemma NetworkBlinks(w: Wired)
    requires AtRest(w) && AutoReconnect(w.b.m) && Pings(w.b.m)
    requires !(w.b.m.reconnect.flow == WaitingForTvOnNetwork && !w.b.m.checker.wasOnNetwork)
    ensures var on, off := Take(HandleExternal(FromNetwork(true), FAR), []), Take(HandleExternal(FromNetwork(false), FAR), []);
      && CanMove(w, on) && CanMove(AfterMove(w, on), off)
      && var t := AfterMove(AfterMove(w, on), off);
         Waiting(t) && t.line == w.line && t.b.m.connection == w.b.m.connection
         && t.b.m.wsUrl == w.b.m.wsUrl && t.b.m.initialized == w.b.m.initialized
  {
    var on, off := Take(HandleExternal(FromNetwork(true), FAR), []), Take(HandleExternal(FromNetwork(false), FAR), []);
    EnvsArePlausible(w.b.m);
    RestTakes(w, FromNetwork(true), FAR, None);
    RestFacts(w);
    assert w.line.inbox + [] == w.line.inbox;
    NothingSent(OnNetwork(w.b.m, true, FAR), Disconnected, []);
    MoveKeeps(w, on);
    var s := AfterMove(w, on);
    assert s.b.m == Noticed(w.b.m, true);
    EnvsArePlausible(s.b.m);
    RestTakes(s, FromNetwork(false), FAR, None);
    NothingSent(OnNetwork(s.b.m, false, FAR), Disconnected, []);
    MoveKeeps(s, off);
  }

  lemma DownDials(w: Wired, avoiding: Option<Output>)
    requires AtRest(w) && ComesBack(w.b.m, w.line.inbox)
    ensures CanDial(w, avoiding)
  {
    hide WiredInv, CanDial;
    if w.b.m.reconnect.flow == WaitingForTvOnNetwork && !w.b.m.checker.wasOnNetwork {
      WaitingDials(w, avoiding);
    } else {
      var on, off := Take(HandleExternal(FromNetwork(true), FAR), []), Take(HandleExternal(FromNetwork(false), FAR), []);
      NetworkBlinks(w);
      hide CanMove;
      WaitingDials(AfterMove(AfterMove(w, on), off), avoiding);
      DialsLater(AfterMove(w, on), off, avoiding);
      DialsLater(w, on, avoiding);
    }
  }

  // ------------------------------------------------ what the last output dials

  /** Avoiding it takes nothing from the runs below. */
  predicate Harmless(avoiding: Option<Output>) {
    avoiding.Some? ==> avoiding.value.SendRegisterPayload? || avoiding.value.InitializeConnection?
  }

  /** An attempt to reconnect is not prevented if the TV is in sight. */
  predicate CanAttempt(m: Manager) {
    Pings(m) || !m.checker.operational
  }

  predicate LastOutput(w: Wired, o: Output) {
    WiredInv(w) && w.b.fsm == Disconnected && w.b.pend == [Emitted(o)]
  }

  lemma LastOutputFacts(w: Wired, o: Output)
    requires LastOutput(w, o)
    requires o.HandleConnectError? || o.HandleSuccessfulDisconnect? || o.HandleDisconnectError?
    ensures Common(w.b.m) && w.b.m.outbox == [] && w.b.m.status == Disconnected
    ensures w.b.m.ws.joinHandle.Some? && HasChannels(w.b.m.ws)
  {
    LoneOutput(w.b.m.status, w.b.pend);
  }

  lemma HandlesLast(w: Wired, o: Output, env: Env, avoiding: Option<Output>)
    requires LastOutput(w, o) && Harmless(avoiding) && Plausible(w.b.m, env) && Refuses(env)
    requires o.HandleConnectError? || o.HandleSuccessfulDisconnect? || o.HandleDisconnectError?
    requires OnOutput(w.b.m, o, env).ws.joinHandle.None?
    ensures var mv := Take(HandleUpdate(env), Goodbye(w.line.stage));
      CanMove(w, mv) && Unasked(w, mv, avoiding) && (DialsBy(w, mv) <==> DS.HasConnect(OnOutput(w.b.m, o, env).outbox))
  {
    LastOutputFacts(w, o);
    GoodbyeEnds(w.line.stage);
    hide OnOutput, Plausible, Refuses, WiredInv;
  }

  lemma FailureDials(m: Manager)
    requires Common(m) && m.outbox == [] && m.status == Disconnected
    requires m.reconnect.flow == Active && ShouldRetryConnectFailure(m) && CanAttempt(m)
    ensures DS.HasConnect(OnOutput(m, HandleConnectError, Near(m)).outbox)
    ensures OnOutput(m, HandleConnectError, Near(m)).ws.joinHandle.None?
  {
    DS.FailureHandled(m, Near(m));
    ResetAwaits(m, Near(m).answer.disk);
    AttemptKeepsNone(ForceReset(m, Near(m).answer.disk), Near(m));
    hide ForceReset, InitiateReconnect;
  }

  lemma FailedConnectDials(w: Wired, avoiding: Option<Output>)
    requires LastOutput(w, HandleConnectError) && Harmless(avoiding)
    requires w.b.m.reconnect.flow == Active && ShouldRetryConnectFailure(w.b.m) && CanAttempt(w.b.m)
    ensures CanDial(w, avoiding)
  {
    LastOutputFacts(w, HandleConnectError);
    FailureDials(w.b.m);
    EnvsArePlausible(w.b.m);
    HandlesLast(w, HandleConnectError, Near(w.b.m), avoiding);
    hide CanDial, WiredInv, OnOutput, CanMove, Unasked;
    DialsNow(w, Take(HandleUpdate(Near(w.b.m)), Goodbye(w.line.stage)), avoiding);
  }

  /** The manager once a completed disconnect has been taken note of. */
  function Completed(m: Manager): Manager {
    InitializeManagerState(AwaitHandler(m.(manualDisconnect := false)), Near(m).answer.disk)
  }

  lemma CompletedFacts(m: Manager)
    requires Common(m) && m.outbox == [] && m.status == Disconnected && KeepsTarget(m.reconnect.flow)
    ensures var r := Completed(m);
      && r.reconnect == m.reconnect && r.connection == m.connection && r.pairing == m.pairing
      && r.checker == m.checker && r.wsUrl.Some? && r.outbox == [] && r.link == Open
      && r.status == Disconnected && r.ws.joinHandle.None?
  {
  }

  lemma CompletionIs(m: Manager, o: Output)
    requires o.HandleSuccessfulDisconnect? || o.HandleDisconnectError?
    ensures OnOutput(m, o, Near(m)) ==
      var r := Completed(m);
      if r.reconnect.flow != Active then r
      else if r.pairing then SetFlow(r, Inactive).(pairing := false)
      else InitiateReconnect(r, false, Near(m))
  {
    hide InitiateReconnect, InitializeManagerState;
  }

  lemma ClosedDials(w: Wired, o: Output, avoiding: Option<Output>)
    requires LastOutput(w, o) && (o.HandleSuccessfulDisconnect? || o.HandleDisconnectError?) && Harmless(avoiding)
    requires KeepsTarget(w.b.m.reconnect.flow)
    requires (w.b.m.reconnect.flow == Active && !w.b.m.pairing && CanAttempt(w.b.m)) || (AutoReconnect(w.b.m) && Pings(w.b.m))
    ensures CanDial(w, avoiding)
  {
    var m := w.b.m;
    var env := Near(m);
    var mv := Take(HandleUpdate(env), Goodbye(w.line.stage));
    LastOutputFacts(w, o);
    CompletedFacts(m);
    CompletionIs(m, o);
    EnvsArePlausible(m);
    AttemptKeepsNone(Completed(m), env);
    hide Completed, InitiateReconnect;
    HandlesLast(w, o, env, avoiding);
    if m.reconnect.flow == Active && !m.pairing && CanAttempt(m) {
      DS.ReconnectDials(Completed(m), env);
      hide CanDial, WiredInv, OnOutput, CanMove, Unasked;
      DialsNow(w, mv, avoiding);
    } else if m.reconnect.flow == Active && !m.pairing {
      assert false;
    } else {
      ClosedRests(w, o, avoiding);
      hide CanDial, WiredInv, OnOutput, CanMove, Unasked;
      DownDials(AfterMove(w, mv), avoiding);
      DialsLater(w, mv, avoiding);
    }
  }

  lemma ClosedRests(w: Wired, o: Output, avoiding: Option<Output>)
    requires LastOutput(w, o) && (o.HandleSuccessfulDisconnect? || o.HandleDisconnectError?) && Harmless(avoiding)
    requires KeepsTarget(w.b.m.reconnect.flow) && (w.b.m.reconnect.flow == Active ==> w.b.m.pairing)
    requires AutoReconnect(w.b.m) && Pings(w.b.m)
    requires CanMove(w, Take(HandleUpdate(Near(w.b.m)), Goodbye(w.line.stage)))
    ensures var t := AfterMove(w, Take(HandleUpdate(Near(w.b.m)), Goodbye(w.line.stage)));
      AtRest(t) && ComesBack(t.b.m, t.line.inbox)
  {
    var m := w.b.m;
    LastOutputFacts(w, o);
    CompletedFacts(m);
    CompletionIs(m, o);
    MoveKeeps(w, Take(HandleUpdate(Near(m)), Goodbye(w.line.stage)));
    var r := OnOutput(m, o, Near(m));
    NothingSent(r, Disconnected, []);
    hide Completed, OnOutput, WiredInv, CanMove;
  }

  /** The state is read, and the output left. */
  lemma ReadsState(w: Wired, s: State, o: Output, avoiding: Option<Output>)
    requires WiredInv(w) && w.b.pend == [NewState(s), Emitted(o)]
    ensures var mv := Take(HandleUpdate(FAR), []);
      && CanMove(w, mv) && Unasked(w, mv, avoiding)
      && AfterMove(w, mv) == Wired(Settled(w.b.m.(status := s), w.b.fsm, [Emitted(o)]), w.line)
      && WiredInv(AfterMove(w, mv))
  {
    var mv := Take(HandleUpdate(FAR), []);
    EnvsArePlausible(w.b.m);
    assert CanMove(w, mv);
    MoveKeeps(w, mv);
    NothingSent(w.b.m.(status := s), w.b.fsm, w.b.pend[1..]);
    assert w.line.inbox + [] == w.line.inbox;
  }

  // ------------------------------------------ the TV leaves the network, and why

  /** Drained, and pinged. */
  predicate Pinged(w: Wired) {
    WiredInv(w) && w.b.pend == [] && Pings(w.b.m)
  }

  /** The bit goes on, and nothing comes of it. */
  lemma GoesOnline(w: Wired, avoiding: Option<Output>)
    requires Pinged(w) && w.b.fsm != Disconnected
    ensures var on := Take(HandleExternal(FromNetwork(true), FAR), []);
      && CanMove(w, on) && Unasked(w, on, avoiding)
      && WiredInv(AfterMove(w, on))
      && AfterMove(w, on) == Wired(Settled(Noticed(w.b.m, true), w.b.fsm, []), w.line)
  {
    var on := Take(HandleExternal(FromNetwork(true), FAR), []);
    EnvsArePlausible(w.b.m);
    assert OnNetwork(w.b.m, true, FAR) == Noticed(w.b.m, true);
    assert CanMove(w, on);
    MoveKeeps(w, on);
    NothingSent(Noticed(w.b.m, true), w.b.fsm, []);
    assert w.line.inbox + [] == w.line.inbox;
  }

  lemma OfflineErrors(m: Manager)
    requires m.checker.wasOnNetwork && m.status != Disconnected && m.link == Open && m.outbox == []
    ensures OnNetwork(m, false, FAR) == Noticed(m, false).(outbox := [Error])
  {
  }

  /** The bit goes off: an Error goes to the machine, the flow as it was. */
  lemma GoesOffline(w: Wired, avoiding: Option<Output>)
    requires Pinged(w) && w.b.fsm != Disconnected && w.b.m.checker.wasOnNetwork
    ensures var off := Take(HandleExternal(FromNetwork(false), FAR), []);
      && CanMove(w, off) && Unasked(w, off, avoiding)
      && WiredInv(AfterMove(w, off))
      && AfterMove(w, off) ==
        Wired(Settled(Noticed(w.b.m, false), Next(w.b.fsm, Error), Emit(w.b.fsm, Error)), w.line)
  {
    var off := Take(HandleExternal(FromNetwork(false), FAR), []);
    EnvsArePlausible(w.b.m);
    OfflineErrors(w.b.m);
    assert w.b.m.running && w.b.m.outbox == [];
    hide OnNetwork, WiredInv, Plausible, Refuses, Next, Emit;
    assert CanMove(w, off);
    MoveKeeps(w, off);
    RunOne(w.b.fsm, Error);
    assert [] + Emit(w.b.fsm, Error) == Emit(w.b.fsm, Error);
    assert w.line.inbox + [] == w.line.inbox;
  }

  /** Seen to come and go, the TV makes the machine take an Error. */
  lemma TvBlinks(w: Wired, avoiding: Option<Output>)
    requires Pinged(w) && w.b.fsm != Disconnected
    ensures var on, off := Take(HandleExternal(FromNetwork(true), FAR), []), Take(HandleExternal(FromNetwork(false), FAR), []);
      && CanMove(w, on) && Unasked(w, on, avoiding)
      && CanMove(AfterMove(w, on), off) && Unasked(AfterMove(w, on), off, avoiding)
      && var t := AfterMove(AfterMove(w, on), off);
         WiredInv(t) && t == Wired(Settled(Noticed(w.b.m, false), Next(w.b.fsm, Error), Emit(w.b.fsm, Error)), w.line)
  {
    hide WiredInv, CanMove, Unasked, AfterMove;
    GoesOnline(w, avoiding);
    var s := AfterMove(w, Take(HandleExternal(FromNetwork(true), FAR), []));
    GoesOffline(s, avoiding);
    assert Noticed(s.b.m, false) == Noticed(w.b.m, false);
  }

  /** If a run dials once an Error has been taken, one dials from here. */
  lemma DialsByBlinking(w: Wired, avoiding: Option<Output>)
    requires Pinged(w) && w.b.fsm != Disconnected
    requires CanDial(Wired(Settled(Noticed(w.b.m, false), Next(w.b.fsm, Error), Emit(w.b.fsm, Error)), w.line), avoiding)
    ensures CanDial(w, avoiding)
  {
    var on, off := Take(HandleExternal(FromNetwork(true), FAR), []), Take(HandleExternal(FromNetwork(false), FAR), []);
    TvBlinks(w, avoiding);
    hide WiredInv, CanMove, Unasked, AfterMove, CanDial;
    DialsLater(AfterMove(w, on), off, avoiding);
    DialsLater(w, on, avoiding);
  }

  lemma ConnectingBlinks(w: Wired, avoiding: Option<Output>)
    requires Pinged(w) && w.b.fsm.Connecting? && Harmless(avoiding)
    requires w.b.m.reconnect.flow == Active && ShouldRetryConnectFailure(w.b.m)
    ensures CanDial(w, avoiding)
  {
    var t := Wired(Settled(Noticed(w.b.m, false), Disconnected, [NewState(Disconnected), Emitted(HandleConnectError)]), w.line);
    TvBlinks(w, avoiding);
    ReadsState(t, Disconnected, HandleConnectError, avoiding);
    hide WiredInv, CanDial, CanMove;
    FailedConnectDials(AfterMove(t, Take(HandleUpdate(FAR), [])), avoiding);
    DialsLater(t, Take(HandleUpdate(FAR), []), avoiding);
    DialsByBlinking(w, avoiding);
  }

  lemma ClosingBlinks(w: Wired, avoiding: Option<Output>)
    requires Pinged(w) && w.b.fsm.Disconnecting? && Harmless(avoiding) && KeepsTarget(w.b.m.reconnect.flow)
    requires (w.b.m.reconnect.flow == Active && !w.b.m.pairing) || AutoReconnect(w.b.m)
    ensures CanDial(w, avoiding)
  {
    var t := Wired(Settled(Noticed(w.b.m, false), Disconnected, [NewState(Disconnected), Emitted(HandleDisconnectError)]), w.line);
    TvBlinks(w, avoiding);
    ReadsState(t, Disconnected, HandleDisconnectError, avoiding);
    hide WiredInv, CanDial, CanMove;
    ClosedDials(AfterMove(t, Take(HandleUpdate(FAR), [])), HandleDisconnectError, avoiding);
    DialsLater(t, Take(HandleUpdate(FAR), []), avoiding);
    DialsByBlinking(w, avoiding);
  }

  // -------------------------------------------------------- what is left to read

  /** Reading one message away from Disconnected: at most one input is sent, and the
      target stays as it is. */
  lemma ReadsOne(w: Wired, avoiding: Option<Output>)
    requires WiredInv(w) && w.b.pend == [] && w.b.fsm != Disconnected && w.line.inbox != []
    ensures var mv := Take(HandleExternal(FromWs(w.line.inbox[0]), FAR), []);
      && CanMove(w, mv) && Unasked(w, mv, avoiding)
      && var r := OnWs(w.b.m, w.line.inbox[0], FAR);
      && var t := AfterMove(w, mv);
      && WiredInv(t) && t.line == ReadOne(w.line)
      && Hears(w.b.m, w.line.inbox[0], r)
      && t.b.m == r.(outbox := [])
      && (r.outbox == [] ==> t.b.fsm == w.b.fsm && t.b.pend == [])
      && (r.outbox != [] ==> t.b.fsm == Next(w.b.fsm, r.outbox[0]) && t.b.pend == Emit(w.b.fsm, r.outbox[0]))
  {
    var m, u := w.b.m, w.line.inbox[0];
    var mv := Take(HandleExternal(FromWs(u), FAR), []);
    EnvsArePlausible(m);
    HandlerHeard(w);
    hide WiredInv, OnWs, ReadOne, Plausible, Refuses, Coherent;
    HearingSends(m, u, FAR);
    assert CanMove(w, mv);
    MoveKeeps(w, mv);
    var r := OnWs(m, u, FAR);
    HearsOne(m, u);
    assert ReadOne(w.line).inbox + [] == ReadOne(w.line).inbox;
    hide Deliver, Emit, Next;
    DeliversOne(r, w.b.fsm);
  }

  lemma HandlerHeard(w: Wired)
    requires WiredInv(w) && w.b.pend == [] && w.b.fsm != Disconnected
    ensures w.b.m.ws.receiver.Some? && w.b.m.running && w.b.m.link == Open && w.b.m.outbox == []
  {
  }

  /** What hearing one message does: the flow changes only with the connection lost,
      and not then if it is to go on as it is. */
  predicate Hears(m: Manager, u: WsUpdate, r: Manager) {
    && r == m.(outbox := r.outbox, initialized := r.initialized, reconnect := r.reconnect)
    && |r.outbox| <= 1
    && (!LosesConnection(u) ==> r.reconnect == m.reconnect)
    && (Keen(m) ==> r.reconnect.flow == m.reconnect.flow)
  }

  predicate LosesConnection(u: WsUpdate) {
    u.WsConnectError? || u.WsMessageReadError? || u.WsServerClosedConnection?
  }

  /** Preparing for a reconnect leaves the flow as it is: a disconnect was asked for, or
      the flow is Active with no checker to say otherwise. */
  predicate Keen(m: Manager) {
    m.manualDisconnect || (AutoReconnect(m) && !m.checker.operational && m.reconnect.flow == Active)
  }

  lemma HearsOne(m: Manager, u: WsUpdate)
    requires m.link == Open && m.outbox == []
    ensures Hears(m, u, OnWs(m, u, FAR))
  {
    if u.WsPayload? {
      ResponseSendsOne(m, u.response);
    }
    hide OnResponse;
  }

  predicate MayFail(w: Wired) {
    && WiredInv(w) && w.b.pend == [] && w.b.fsm.Connecting? && w.b.m.manualDisconnect
    && w.b.m.reconnect.flow == Active && ShouldRetryConnectFailure(w.b.m) && CanAttempt(w.b.m)
    && WsConnected !in w.line.inbox
  }

  lemma WhatIsUnread(w: Wired)
    requires MayFail(w)
    ensures w.line.heard.Starting? || w.line.heard.Dialling?
    ensures w.line.inbox == [] ==> w.line.stage == w.line.heard
    ensures w.line.inbox != [] ==>
      w.line.inbox[0] == (if w.line.heard.Starting? then WsIdle else WsConnectError)
  {
    if w.line.inbox != [] {
      assert w.line.inbox[0] in w.line.inbox;
    }
  }

  /** The handler says the next word on the way to failing. */
  lemma FailureIsSaid(w: Wired, avoiding: Option<Output>)
    requires MayFail(w) && w.line.inbox == []
    ensures var mv := Speak(if w.line.heard.Starting? then WsIdle else WsConnectError);
      && CanMove(w, mv) && Unasked(w, mv, avoiding)
      && MayFail(AfterMove(w, mv)) && AfterMove(w, mv).line.heard == w.line.heard && AfterMove(w, mv).line.inbox != []
  {
    WhatIsUnread(w);
    MoveKeeps(w, Speak(if w.line.heard.Starting? then WsIdle else WsConnectError));
    hide Inv, Placed, Coherent, ShouldRetryConnectFailure;
  }

  /** ... and it is read: the attempt may still fail, or has failed. */
  lemma FailureIsRead(w: Wired, avoiding: Option<Output>)
    requires MayFail(w) && w.line.inbox != []
    ensures var mv := Take(HandleExternal(FromWs(w.line.inbox[0]), FAR), []);
      && CanMove(w, mv) && Unasked(w, mv, avoiding)
      && var t := AfterMove(w, mv);
      && (w.line.heard.Starting? ==> MayFail(t) && t.line.heard.Dialling?)
      && (!w.line.heard.Starting? ==>
            WiredInv(t) && t.b.fsm == Disconnected && t.b.pend == [NewState(Disconnected), Emitted(HandleConnectError)] &&
            t.b.m.reconnect.flow == Active && ShouldRetryConnectFailure(t.b.m) && CanAttempt(t.b.m))
  {
    WhatIsUnread(w);
    ReadsOne(w, avoiding);
    ReadingIsCoherent(w.line);
    HandlerHeard(w);
    HearingSends(w.b.m, w.line.inbox[0], FAR);
    FailureEmits(w.b.fsm);
    assert forall u | u in w.line.inbox[1..] :: u in w.line.inbox;
    assert w.line.inbox[0].WsIdle? ==> OnWs(w.b.m, w.line.inbox[0], FAR) == w.b.m;
    hide WiredInv, CanMove, AfterMove, Unasked, Coherent, OnWs, Emit, Next;
  }

  lemma FailureEmits(s: State)
    requires s.Connecting?
    ensures Next(s, Error) == Disconnected && Emit(s, Error) == [NewState(Disconnected), Emitted(HandleConnectError)]
  {
  }

  /** Until the handler has said Connected, it may still fail to connect. */
  lemma ConnectingFails(w: Wired, avoiding: Option<Output>)
    requires MayFail(w) && Harmless(avoiding)
    ensures CanDial(w, avoiding)
    decreases if w.line.heard.Starting? then 1 else 0, if w.line.inbox == [] then 1 else 0
  {
    hide WiredInv, CanDial, CanMove, AfterMove, Unasked, MayFail, ShouldRetryConnectFailure;
    if w.line.inbox == [] {
      var mv := Speak(if w.line.heard.Starting? then WsIdle else WsConnectError);
      FailureIsSaid(w, avoiding);
      ConnectingFails(AfterMove(w, mv), avoiding);
      DialsLater(w, mv, avoiding);
    } else {
      var mv := Take(HandleExternal(FromWs(w.line.inbox[0]), FAR), []);
      FailureIsRead(w, avoiding);
      var t := AfterMove(w, mv);
      if w.line.heard.Starting? {
        ConnectingFails(t, avoiding);
      } else {
        FailureDialsAgain(t, avoiding);
      }
      DialsLater(w, mv, avoiding);
    }
  }

  lemma FailureDialsAgain(w: Wired, avoiding: Option<Output>)
    requires WiredInv(w) && w.b.fsm == Disconnected && w.b.pend == [NewState(Disconnected), Emitted(HandleConnectError)]
    requires w.b.m.reconnect.flow == Active && ShouldRetryConnectFailure(w.b.m) && CanAttempt(w.b.m) && Harmless(avoiding)
    ensures CanDial(w, avoiding)
  {
    ReadsState(w, Disconnected, HandleConnectError, avoiding);
    hide WiredInv, CanDial, CanMove;
    FailedConnectDials(AfterMove(w, Take(HandleUpdate(FAR), [])), avoiding);
    DialsLater(w, Take(HandleUpdate(FAR), []), avoiding);
  }

  predicate MayClose(w: Wired) {
    && WiredInv(w) && w.b.pend == [] && w.b.fsm.Disconnecting? && Keen(w.b.m)
    && w.b.m.reconnect.flow == Active && !w.b.m.pairing && CanAttempt(w.b.m) && !w.line.heard.Ended?
  }

  lemma ClosingReads(w: Wired, avoiding: Option<Output>)
    requires MayClose(w) && w.line.inbox != []
    ensures var mv := Take(HandleExternal(FromWs(w.line.inbox[0]), FAR), []);
      && CanMove(w, mv) && Unasked(w, mv, avoiding)
      && var t := AfterMove(w, mv);
      && t.line == ReadOne(w.line)
      && (MayClose(t)
          || (WiredInv(t) && |t.b.pend| == 1 && !t.b.pend[0].Emitted? && MayClose(AfterMove(t, Take(HandleUpdate(FAR), []))))
          || (exists o: Output | o.HandleSuccessfulDisconnect? || o.HandleDisconnectError? ::
                WiredInv(t) && t.b.pend == [NewState(Disconnected), Emitted(o)] && t.b.fsm == Disconnected &&
                t.b.m.reconnect.flow == Active && !t.b.m.pairing && CanAttempt(t.b.m)))
  {
    var u := w.line.inbox[0];
    ReadsOne(w, avoiding);
    ReadingIsCoherent(w.line);
    HandlerHeard(w);
    HearingSends(w.b.m, u, FAR);
    ClosingHasTalked(w);
    OtherIsNotLast(w.line.heard, u);
    var t := AfterMove(w, Take(HandleExternal(FromWs(u), FAR), []));
    var r := OnWs(w.b.m, u, FAR);
    hide WiredInv, CanMove, OnWs, Unasked, ReadOne, Emit, Next, AfterMove, Says;
    if r.outbox != [] {
      ClosingEmits(w.b.fsm, r.outbox[0]);
      if !r.outbox[0].Error? && !r.outbox[0].DisconnectionComplete? {
        SkipUpdate(t, avoiding);
      }
    }
  }

  lemma ClosingHasTalked(w: Wired)
    requires WiredInv(w) && w.b.fsm.Disconnecting?
    ensures !w.line.heard.Starting? && !w.line.heard.Dialling?
  {
  }

  lemma OtherIsNotLast(stage: Stage, u: WsUpdate)
    requires Says(stage, u).Some? && !stage.Starting? && !stage.Dialling?
    ensures Says(stage, u).value.Ended? ==> u.WsDisconnected?
  {
  }

  /** What the machine makes of an input while Disconnecting. */
  lemma ClosingEmits(s: State, i: Input)
    requires s.Disconnecting? && !i.Reset?
    ensures i.Error? ==> Emit(s, i) == [NewState(Disconnected), Emitted(HandleDisconnectError)] && Next(s, i) == Disconnected
    ensures i.DisconnectionComplete? ==>
      Emit(s, i) == [NewState(Disconnected), Emitted(HandleSuccessfulDisconnect)] && Next(s, i) == Disconnected
    ensures !i.Error? && !i.DisconnectionComplete? ==> Emit(s, i) == [TransitionError(i, s)] && Next(s, i) == s
  {
  }

  /** Reading what is left, or the handler's last word, completes the disconnect. */
  lemma ClosingDials(w: Wired, avoiding: Option<Output>)
    requires MayClose(w) && Harmless(avoiding)
    ensures CanDial(w, avoiding)
    decreases if w.line.stage.Ended? then |w.line.inbox| else |w.line.inbox| + 2
  {
    if w.line.inbox == [] {
      var mv := Speak(WsDisconnected);
      assert CanMove(w, mv);
      MoveKeeps(w, mv);
      hide WiredInv, CanDial;
      ClosingDials(AfterMove(w, mv), avoiding);
      DialsLater(w, mv, avoiding);
    } else {
      var mv := Take(HandleExternal(FromWs(w.line.inbox[0]), FAR), []);
      var skip := Take(HandleUpdate(FAR), []);
      ClosingReads(w, avoiding);
      ReadingIsCoherent(w.line);
      var t := AfterMove(w, mv);
      hide WiredInv, CanDial, CanMove, ReadOne;
      if MayClose(t) {
        ClosingDials(t, avoiding);
      } else {
        if |t.b.pend| == 1 {
          SkipUpdate(t, avoiding);
          ClosingDials(AfterMove(t, skip), avoiding);
        } else {
          var o: Output :| (o.HandleSuccessfulDisconnect? || o.HandleDisconnectError?) &&
            t.b.pend == [NewState(Disconnected), Emitted(o)];
          ReadsState(t, Disconnected, o, avoiding);
          ClosedDials(AfterMove(t, skip), o, avoiding);
        }
        DialsLater(t, skip, avoiding);
      }
      DialsLater(w, mv, avoiding);
    }
  }

  // ------------------------------------------------ a connection lost while pinged

  /** The TV is seen to go, and the retry preparation finds it gone. */
  lemma UpDials(w: Wired, avoiding: Option<Output>)
    requires Pinged(w) && Up(w.b.fsm) && Harmless(avoiding)
    requires !w.b.m.manualDisconnect && AutoReconnect(w.b.m)
    ensures CanDial(w, avoiding)
  {
    var fsm := Disconnecting(w.b.fsm.url);
    var skip := Take(HandleUpdate(FAR), []);
    var t := Wired(Settled(Noticed(w.b.m, false), fsm, [NewState(fsm), Emitted(DisconnectFromTv)]), w.line);
    UpFacts(w.b);
    ErrorEmits(w.b.fsm);
    hide WiredInv, CanDial, CanMove, Emit, Next, Up, Unasked, AfterMove;
    TvBlinks(w, avoiding);
    ReadsState(t, fsm, DisconnectFromTv, avoiding);
    PreparedToClose(AfterMove(t, skip), avoiding);
    DialsLater(t, skip, avoiding);
    DialsByBlinking(w, avoiding);
  }

  lemma PreparedToClose(w: Wired, avoiding: Option<Output>)
    requires WiredInv(w) && w.b.fsm.Disconnecting? && w.b.pend == [Emitted(DisconnectFromTv)] && Harmless(avoiding)
    requires Pings(w.b.m) && !w.b.m.manualDisconnect && AutoReconnect(w.b.m) && w.b.m.reconnect.flow == Inactive
    ensures CanDial(w, avoiding)
  {
    if !w.line.open {
      ToldTooLate(w, avoiding);
    } else {
      ToldInTime(w, avoiding);
    }
  }

  /** The handler takes the shutdown; the flow is waiting, and the disconnect comes. */
  lemma ToldInTime(w: Wired, avoiding: Option<Output>)
    requires WiredInv(w) && w.b.fsm.Disconnecting? && w.b.pend == [Emitted(DisconnectFromTv)] && Harmless(avoiding)
    requires Pings(w.b.m) && !w.b.m.manualDisconnect && AutoReconnect(w.b.m) && w.b.m.reconnect.flow == Inactive
    requires w.line.open
    ensures CanDial(w, avoiding)
  {
    var env := EnvWith(false, true, Unreadable);
    var mv := Take(HandleUpdate(env), []);
    LoneOutput(w.b.m.status, w.b.pend);
    var r := OnOutput(w.b.m, DisconnectFromTv, env);
    assert r.outbox == [] && r.reconnect.flow == WaitingForTvOnNetwork && r.ws.joinHandle == w.b.m.ws.joinHandle;
    assert CanMove(w, mv);
    MoveKeeps(w, mv);
    NothingSent(r, w.b.fsm, []);
    hide WiredInv, CanDial, CanMove, OnOutput;
    ClosingBlinks(AfterMove(w, mv), avoiding);
    DialsLater(w, mv, avoiding);
  }

  /** The handler has gone: the reset keeps the waiting flow, and reads a URL. */
  lemma ResetInstead(w: Wired, avoiding: Option<Output>)
    requires WiredInv(w) && w.b.fsm.Disconnecting? && w.b.pend == [Emitted(DisconnectFromTv)] && Harmless(avoiding)
    requires Pings(w.b.m) && !w.b.m.manualDisconnect && AutoReconnect(w.b.m) && w.b.m.reconnect.flow == Inactive
    requires !w.line.open
    ensures var mv := Take(HandleUpdate(EnvWith(false, false, Stored(Some(TV_URL)))), []);
      && CanMove(w, mv) && Unasked(w, mv, avoiding)
      && var t := AfterMove(w, mv);
         WiredInv(t) && t.b.pend == [NewState(Disconnected)] && t.b.fsm == Disconnected && ComesBack(t.b.m, t.line.inbox)
  {
    var env := EnvWith(false, false, Stored(Some(TV_URL)));
    var mv := Take(HandleUpdate(env), []);
    HandlingIsPlaced(w, DisconnectFromTv);
    ClosesByReset(w.b.m, env);
    assert w.b.m.running && w.b.m.outbox == [];
    var r := OnOutput(w.b.m, DisconnectFromTv, env);
    hide OnOutput, WiredInv, Handling, Placed;
    assert CanMove(w, mv);
    MoveKeeps(w, mv);
    hide CanMove;
    RunOne(w.b.fsm, Reset);
    assert [] + Emit(w.b.fsm, Reset) == [NewState(Disconnected)];
  }

  lemma ToldTooLate(w: Wired, avoiding: Option<Output>)
    requires WiredInv(w) && w.b.fsm.Disconnecting? && w.b.pend == [Emitted(DisconnectFromTv)] && Harmless(avoiding)
    requires Pings(w.b.m) && !w.b.m.manualDisconnect && AutoReconnect(w.b.m) && w.b.m.reconnect.flow == Inactive
    requires !w.line.open
    ensures CanDial(w, avoiding)
  {
    var mv := Take(HandleUpdate(EnvWith(false, false, Stored(Some(TV_URL)))), []);
    ResetInstead(w, avoiding);
    var t := AfterMove(w, mv);
    hide WiredInv, CanDial, CanMove, Unasked;
    SkipUpdate(t, avoiding);
    DownDials(AfterMove(t, Take(HandleUpdate(FAR), [])), avoiding);
    DialsLater(t, Take(HandleUpdate(FAR), []), avoiding);
    DialsLater(w, mv, avoiding);
  }

  lemma ClosesByReset(m: Manager, env: Env)
    requires m.link == Open && m.outbox == [] && m.ws.sender.Some? && m.ws.joinHandle.Some?
    requires !m.manualDisconnect && AutoReconnect(m) && m.reconnect.flow == Inactive && m.checker.operational
    requires env == EnvWith(false, false, Stored(Some(TV_URL)))
    ensures var r := OnOutput(m, DisconnectFromTv, env);
      && r.outbox == [Reset] && r.connection == m.connection && r.checker == m.checker
      && r.wsUrl.Some? && r.ws.joinHandle.None?
  {
  }
}
