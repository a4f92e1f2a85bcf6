/** What the manager hands to WebSocket handlers, handler by handler of the loop. */
module HandlerLog {
  import opened Wrappers
  import opened StateMachine
  import opened ManagerModel
  import opened ManagerFacts

  /** Everything handed over but shutdowns, and the shutdowns. */
  function TellingIn(h: Handed): Option<Handed> {
    if h.message.ShutDown? then None else Some(h)
  }

  function ShutDownIn(h: Handed): Option<Handed> {
    if h.message.ShutDown? then Some(h) else None
  }

  function Tellings(log: seq<Handed>): seq<Handed> {
    Collect(TellingIn, log)
  }

  function ShutDowns(log: seq<Handed>): seq<Handed> {
    Collect(ShutDownIn, log)
  }

  /** Messages for whoever holds the other end of the sender. */
  function Addressed(sender: Option<nat>, messages: seq<WsMessage>): seq<Handed> {
    if sender.None? || messages == [] then []
    else [Handed(sender.value, messages[0])] + Addressed(sender, messages[1..])
  }

  function Times(n: nat): seq<WsMessage> {
    if n == 0 then [] else Times(n - 1) + [ShutDown]
  }

  function ResetIn(i: Input): Option<Input> {
    if i.Reset? then Some(i) else None
  }

  function Resets(ins: seq<Input>): nat {
    |Collect(ResetIn, ins)|
  }

  /** From `m` to `r` these messages were handed over, in order, and a shutdown for each
      reset sent, and so many more. */
  predicate HandsOver(m: Manager, r: Manager, told: seq<WsMessage>, more: nat) {
    && r.ws.sender == m.ws.sender && r.ws.started == m.ws.started && r.link == m.link
    && Tellings(r.ws.log) == Tellings(m.ws.log) + Addressed(m.ws.sender, told)
    && Resets(m.outbox) <= Resets(r.outbox)
    && ShutDowns(r.ws.log) ==
         ShutDowns(m.ws.log) + Addressed(m.ws.sender, Times(Resets(r.outbox) - Resets(m.outbox) + more))
  }

  // ------------------------------------------------------------------ composition

  lemma {:induction false} AddressedAppend(sender: Option<nat>, a: seq<WsMessage>, b: seq<WsMessage>)
    ensures Addressed(sender, a + b) == Addressed(sender, a) + Addressed(sender, b)
    decreases |a|
  {
    if a == [] {
      assert a + b == b;
    } else {
      Front(a, b);
      AddressedAppend(sender, a[1..], b);
    }
  }

  lemma {:induction false} TimesAdd(a: nat, b: nat)
    ensures Times(a + b) == Times(a) + Times(b)
    decreases b
  {
    if b > 0 {
      TimesAdd(a, b - 1);
      assert Times(a) + (Times(b - 1) + [ShutDown]) == (Times(a) + Times(b - 1)) + [ShutDown];
    } else {
      assert Times(a) + [] == Times(a);
    }
  }

  lemma HandsOn(m: Manager, a: Manager, r: Manager, told: seq<WsMessage>, next: seq<WsMessage>, more: nat, yet: nat)
    requires HandsOver(m, a, told, more) && HandsOver(a, r, next, yet)
    ensures HandsOver(m, r, told + next, more + yet)
  {
    var x, y := Resets(a.outbox) - Resets(m.outbox) + more, Resets(r.outbox) - Resets(a.outbox) + yet;
    AddressedAppend(m.ws.sender, told, next);
    AddressedAppend(m.ws.sender, Times(x), Times(y));
    TimesAdd(x, y);
    hide Tellings, ShutDowns, Resets, Addressed, Times;
    Assoc(Tellings(m.ws.log), Addressed(m.ws.sender, told), Addressed(m.ws.sender, next));
    Assoc(ShutDowns(m.ws.log), Addressed(m.ws.sender, Times(x)), Addressed(m.ws.sender, Times(y)));
  }

  lemma HandsOnSilently(m: Manager, a: Manager, r: Manager, more: nat, yet: nat)
    requires HandsOver(m, a, [], more) && HandsOver(a, r, [], yet)
    ensures HandsOver(m, r, [], more + yet)
  {
    var none: seq<WsMessage> := [];
    hide HandsOver;
    HandsOn(m, a, r, none, none, more, yet);
    assert none + none == none;
  }

  /** Nothing handed, and no reset sent. */
  lemma HandsNothing(m: Manager, r: Manager)
    requires r.ws.sender == m.ws.sender && r.ws.started == m.ws.started && r.ws.log == m.ws.log && r.link == m.link
    requires Resets(r.outbox) == Resets(m.outbox)
    ensures HandsOver(m, r, [], 0)
  {
    assert Tellings(m.ws.log) + [] == Tellings(m.ws.log) && ShutDowns(m.ws.log) + [] == ShutDowns(m.ws.log);
    assert Addressed(m.ws.sender, []) == [] && Times(0) == [];
  }

  // -------------------------------------------------------------------- the senders

  lemma HandsOne(m: Manager, w: WsMessage)
    ensures HandsOver(m, HandToWs(m, w), if w.ShutDown? then [] else [w], if w.ShutDown? then 1 else 0)
  {
    var sender := m.ws.sender;
    assert Times(1) == [ShutDown] && Times(0) == [];
    assert [w][1..] == [];
    assert Addressed(sender, [w]) == if sender.None? then [] else [Handed(sender.value, w)];
    assert Addressed(sender, []) == [];
    assert Tellings(m.ws.log) + [] == Tellings(m.ws.log) && ShutDowns(m.ws.log) + [] == ShutDowns(m.ws.log);
    assert m.ws.log + [] == m.ws.log;
    if sender.Some? {
      CollectSnoc(TellingIn, m.ws.log, Handed(sender.value, w));
      CollectSnoc(ShutDownIn, m.ws.log, Handed(sender.value, w));
    }
  }

  lemma FsmHandsNothing(m: Manager, i: Input)
    requires !i.Reset?
    ensures HandsOver(m, SendToFsm(m, i), [], 0)
  {
    CollectSnoc(ResetIn, m.outbox, i);
    HandsNothing(m, SendToFsm(m, i));
  }

  /** One shutdown for the reset itself. */
  lemma ResetHands(m: Manager, disk: Disk)
    requires m.link == Open
    ensures HandsOver(m, ForceReset(m, disk), [], 0)
  {
    var told := HandToWs(m, ShutDown);
    HandsOne(m, ShutDown);
    ResetFacts(m, disk);
    CollectSnoc(ResetIn, m.outbox, Reset);
    var r := ForceReset(m, disk);
    assert r.ws.log == told.ws.log && r.link == Open;
    hide ForceReset, Tellings, ShutDowns, Addressed, Times, HandToWs;
    assert Resets(r.outbox) == Resets(m.outbox) + 1;
  }

  lemma SendHands(m: Manager, w: WsMessage, a: Answer)
    requires m.link == Open
    ensures HandsOver(m, SendToWs(m, w, a), if w.ShutDown? then [] else [w], if w.ShutDown? && m.ws.sender.Some? then 1 else 0)
  {
    var told := if w.ShutDown? then [] else [w];
    hide ForceReset;
    if m.ws.sender.None? {
      HandsNothing(m, m);
      assert Addressed(m.ws.sender, told) == Addressed(m.ws.sender, []);
    } else {
      HandsOne(m, w);
      if !a.sent {
        ResetHands(HandToWs(m, w), a.disk);
        HandsOn(m, HandToWs(m, w), SendToWs(m, w, a), told, [], if w.ShutDown? then 1 else 0, 0);
        assert told + [] == told;
      }
    }
    hide Tellings, ShutDowns, Addressed, Times, Resets;
  }

  function QueriesUpTo(n: nat): seq<WsMessage> {
    if n == 0 then [] else QueriesUpTo(n - 1) + [Query(n - 1)]
  }

  lemma {:induction false} QueriesHand(m: Manager, answers: seq<Answer>)
    requires m.link == Open
    ensures HandsOver(m, SendQueries(m, answers), QueriesUpTo(|answers|), 0)
    decreases |answers|
  {
    hide HandsOver;
    if answers == [] {
      HandsNothing(m, m);
    } else {
      var n := |answers| - 1;
      var before := SendQueries(m, answers[..n]);
      QueriesHand(m, answers[..n]);
      LinkKept(m, before, QueriesUpTo(n), 0);
      hide SendToWs;
      SendHands(before, Query(n), answers[n]);
      HandsOn(m, before, SendToWs(before, Query(n), answers[n]), QueriesUpTo(n), [Query(n)], 0, 0);
    }
  }

  lemma LinkKept(m: Manager, r: Manager, told: seq<WsMessage>, more: nat)
    requires HandsOver(m, r, told, more)
    ensures r.link == m.link && r.ws.sender == m.ws.sender && r.ws.started == m.ws.started
  {
  }

  // ----------------------------------------------------------------- the handlers

  lemma PrepareHands(m: Manager, env: Env)
    ensures HandsOver(m, OptionallyPrepareForReconnect(m, env.firstLoad, env.secondLoad), [], 0)
  {
    HandsNothing(m, OptionallyPrepareForReconnect(m, env.firstLoad, env.secondLoad));
    hide HandsOver;
  }

  lemma ConnectHands(m: Manager, c: Connection)
    requires m.link == Open
    ensures HandsOver(m, InitiateConnectToTv(m, c), [], 0)
  {
    hide HandsOver;
    if CanConnect(m, c) {
      CollectSnoc(ResetIn, m.outbox, Connect(c.wsUrl.value));
    }
    HandsNothing(m, InitiateConnectToTv(m, c));
  }

  lemma AttemptHands(m: Manager, immediate: bool, env: Env)
    requires m.link == Open
    ensures HandsOver(m, InitiateReconnect(m, immediate, env), [], 0)
  {
    hide HandsOver, ForceReset, InitiateConnectToTv;
    var m1 := SetFlow(m, Active);
    HandsNothing(m, m);
    HandsNothing(m, m1);
    if !(!env.reconnectLoad && m.checker.operational) {
      if m1.wsUrl.None? {
        var m2 := SetFlow(m1, Inactive);
        HandsNothing(m, m2);
        ResetHands(m2, env.resetDisk);
        HandsOnSilently(m, m2, ForceReset(m2, env.resetDisk), 0, 0);
      } else if m1.connection.Some? {
        var m2 := m1.(reconnect := CountRetry(m1.reconnect, immediate));
        HandsNothing(m, m2);
        ConnectHands(m2, m1.connection.value);
        HandsOnSilently(m, m2, InitiateConnectToTv(m2, m1.connection.value), 0, 0);
      }
    }
  }

  lemma CompletionHands(m: Manager, env: Env)
    requires m.link == Open
    ensures HandsOver(m, HandleDisconnected(m.(manualDisconnect := false), env), [], 0)
  {
    hide HandsOver, InitiateReconnect;
    var m1 := InitializeManagerState(AwaitHandler(m.(manualDisconnect := false)), env.answer.disk);
    HandsNothing(m, m1);
    if m1.reconnect.flow == Active && m1.pairing {
      HandsNothing(m, SetFlow(m1, Inactive).(pairing := false));
    } else if m1.reconnect.flow == Active {
      AttemptHands(m1, false, env);
      HandsOnSilently(m, m1, InitiateReconnect(m1, false, env), 0, 0);
    }
  }

  lemma FailureHands(m: Manager, env: Env)
    requires m.link == Open
    ensures HandsOver(m, OnOutput(m, HandleConnectError, env), [], 0)
  {
    var m1 := ForceReset(m, env.answer.disk);
    ResetHands(m, env.answer.disk);
    LinkKept(m, m1, [], 0);
    hide HandsOver, InitiateReconnect, ForceReset, ShouldRetryConnectFailure;
    AttemptHands(m1, false, env);
    HandsOnSilently(m, m1, InitiateReconnect(m1, false, env), 0, 0);
    HandsNothing(m1, SetFlow(m1, Inactive));
    HandsOnSilently(m, m1, SetFlow(m1, Inactive), 0, 0);
  }

  /** What handling an output has the handler told: the registration once; the six
      queries in order; a command; and a shutdown if the handler is still to be awaited. */
  function ToldOn(o: Output): seq<WsMessage> {
    match o
    case SendRegisterPayload => [Register]
    case InitializeConnection => [Query(0), Query(1), Query(2), Query(3), Query(4), Query(5)]
    case PassCommand(c) => [Command(c)]
    case _ => []
  }

  predicate ShutsDown(m: Manager) {
    m.ws.joinHandle.Some? && m.ws.sender.Some?
  }

  lemma SixQueries()
    ensures QueriesUpTo(6) == [Query(0), Query(1), Query(2), Query(3), Query(4), Query(5)]
  {
    assert QueriesUpTo(3) == [Query(0), Query(1), Query(2)];
  }

  lemma OutputHands(m: Manager, o: Output, env: Env)
    requires m.link == Open && Complete(env) && !o.ConnectToTv?
    ensures HandsOver(m, OnOutput(m, o, env), ToldOn(o), if o.DisconnectFromTv? && ShutsDown(m) then 1 else 0)
  {
    hide HandsOver, SendToWs, SendQueries, HandleDisconnected, ForceReset, InitiateReconnect, OptionallyPrepareForReconnect;
    match o
    case SendRegisterPayload =>
      var m1 := SetFlow(m, Inactive).(sessions := m.sessions + 1);
      HandsNothing(m, m1);
      SendHands(m1, Register, env.answer);
      HandsOn(m, m1, SendToWs(m1, Register, env.answer), [], [Register], 0, 0);
      assert [] + [Register] == [Register];
    case PairWithTv => HandsNothing(m, m.(pairing := true));
    case InitializeConnection => InitializationHands(m, env);
    case PassCommand(c) => SendHands(m, Command(c), env.answer);
    case DisconnectFromTv => DisconnectHands(m, env);
    case HandleSuccessfulDisconnect => CompletionHands(m, env);
    case HandleDisconnectError => CompletionHands(m, env);
    case HandleConnectError => FailureHands(m, env);
  }

  lemma InitializationHands(m: Manager, env: Env)
    requires m.link == Open && Complete(env)
    ensures HandsOver(m, OnOutput(m, InitializeConnection, env), ToldOn(InitializeConnection), 0)
  {
    hide HandsOver, SendQueries;
    var m1 := m.(pairing := false);
    var m2 := SendQueries(m1, env.queryAnswers);
    HandsNothing(m, m1);
    QueriesHand(m1, env.queryAnswers);
    SixQueries();
    HandsOn(m, m1, m2, [], QueriesUpTo(6), 0, 0);
    HandsNothing(m2, InitializeTvConnection(m1, env.queryAnswers));
    HandsOn(m, m2, InitializeTvConnection(m1, env.queryAnswers), [] + QueriesUpTo(6), [], 0, 0);
    assert [] + QueriesUpTo(6) + [] == ToldOn(InitializeConnection);
  }

  lemma DisconnectHands(m: Manager, env: Env)
    requires m.link == Open
    ensures HandsOver(m, OnOutput(m, DisconnectFromTv, env), [], if ShutsDown(m) then 1 else 0)
  {
    var m1 := OptionallyPrepareForReconnect(m, env.firstLoad, env.secondLoad);
    PrepareHands(m, env);
    assert m1.ws == m.ws && m1.link == m.link;
    hide HandsOver, SendToWs, OptionallyPrepareForReconnect;
    if m.ws.joinHandle.Some? {
      SendHands(m1, ShutDown, env.answer);
      HandsOnSilently(m, m1, SendToWs(m1, ShutDown, env.answer), 0, if m.ws.sender.Some? then 1 else 0);
    }
  }

  lemma ResponseHands(m: Manager, r: TvResponse)
    requires m.link == Open
    ensures HandsOver(m, OnResponse(m, r), [], 0)
  {
    FsmHandsNothing(m, Pair);
    FsmHandsNothing(m, Error);
    FsmHandsNothing(m, Initialize);
    FsmHandsNothing(m, StartCommunication);
    var started := SendToFsm(m, StartCommunication);
    HandsNothing(m, m);
    hide HandsOver;
    if r.Volume? && !m.initialized {
      HandsNothing(started, started.(initialized := true));
      HandsOnSilently(m, started, started.(initialized := true), 0, 0);
    }
  }

  lemma HearingHands(m: Manager, u: WsUpdate, env: Env)
    requires m.link == Open
    ensures HandsOver(m, OnWs(m, u, env), [], 0)
  {
    hide HandsOver, OnResponse, OptionallyPrepareForReconnect, SendToFsm;
    var m1 := OptionallyPrepareForReconnect(m, env.firstLoad, env.secondLoad);
    HandsNothing(m, m);
    match u
    case WsPayload(r) => ResponseHands(m, r);
    case WsIdle =>
    case WsConnected => FsmHandsNothing(m, AttemptRegister);
    case WsDisconnected => FsmHandsNothing(m, DisconnectionComplete);
    case WsConnectionOk(_) => FsmHandsNothing(m, Error);
    case _ =>
      PrepareHands(m, env);
      FsmHandsNothing(m1, Error);
      HandsOnSilently(m, m1, SendToFsm(m1, Error), 0, 0);
  }

  lemma NoticingHands(m: Manager, onNetwork: bool, env: Env)
    requires m.link == Open
    ensures HandsOver(m, OnNetwork(m, onNetwork, env), [], 0)
  {
    hide HandsOver, InitiateReconnect, SendToFsm;
    var m1 := Noticed(m, onNetwork);
    HandsNothing(m, m1);
    FsmHandsNothing(m1, Error);
    HandsNothing(m1, SetFlow(m1, if AutoReconnect(m1) then WaitingForTvOnNetwork else Inactive));
    AttemptHands(m1, true, env);
    HandsOnSilently(m, m1, InitiateReconnect(m1, true, env), 0, 0);
    HandsOnSilently(m, m1, SendToFsm(m1, Error), 0, 0);
    HandsOnSilently(m, m1, SetFlow(m1, if AutoReconnect(m1) then WaitingForTvOnNetwork else Inactive), 0, 0);
  }

  /** A request hands over nothing; a test of the connection does while initialized. */
  lemma AskingHands(m: Manager, msg: ManagerMessage, env: Env)
    requires m.link == Open && msg != ShutDownManager
    ensures HandsOver(m, OnCaller(m, msg, env), if msg.CallerTestConnection? && m.initialized then [TestConnection] else [], 0)
  {
    hide HandsOver, SendToWs, ForceReset, InitiateConnectToTv, SendToFsm;
    HandsNothing(m, m);
    match msg
    case CancelReconnect =>
      var m1 := SetFlow(m, Cancelled);
      HandsNothing(m, m1);
      ResetHands(m1, env.answer.disk);
      HandsOnSilently(m, m1, ForceReset(m1, env.answer.disk), 0, 0);
    case ConnectTo(c) => ConnectHands(m, c);
    case ConnectLastGoodConnection =>
      if m.lastGood.Some? {
        ConnectHands(m, m.lastGood.value);
      }
    case CallerDisconnect =>
      var m1 := m.(manualDisconnect := true);
      HandsNothing(m, m1);
      FsmHandsNothing(m1, StateMachine.Disconnect);
      HandsOnSilently(m, m1, SendToFsm(m1, StateMachine.Disconnect), 0, 0);
    case SendTvCommand(c) => FsmHandsNothing(m, SendCommand(c));
    case CallerTestConnection => SendHands(m, TestConnection, env.answer);
    case OtherRequest =>
  }

  lemma ExternalHands(m: Manager, ev: External, env: Env)
    requires m.link == Open && ev != FromCaller(ShutDownManager)
    ensures HandsOver(m, OnExternal(m, ev, env),
                      if ev == FromCaller(CallerTestConnection) && m.initialized then [TestConnection] else [], 0)
  {
    hide HandsOver, OnCaller, OnWs, OnNetwork;
    match ev
    case FromCaller(msg) => AskingHands(m, msg, env);
    case FromWs(u) => HearingHands(m, u, env);
    case FromNetwork(onNetwork) => NoticingHands(m, onNetwork, env);
  }

  /** What the end of the loop leaves of the handler, and sends. */
  lemma EndingLeaves(m: Manager, env: Env)
    requires m.link == Open
    ensures var r := OnCaller(m, ShutDownManager, env);
      var told := HandToWs(m.(link := Closed), ShutDown);
      && r.outbox == m.outbox && r.ws.sender == m.ws.sender && r.ws.started == m.ws.started
      && r.ws.log == if !ShutsDown(m) then m.ws.log else if env.answer.sent then told.ws.log else HandToWs(told, ShutDown).ws.log
  {
    ResetWhileClosed(HandToWs(m.(link := Closed), ShutDown), env.answer.disk);
    hide ForceReset;
  }

  /** The end of the loop: the handler is told, and told again by the reset if it could
      not be; no reset is sent, for there is no machine. */
  lemma EndingHands(m: Manager, env: Env)
    requires m.link == Open
    ensures var r := OnCaller(m, ShutDownManager, env);
      var n := if !ShutsDown(m) then 0 else if env.answer.sent then 1 else 2;
      && r.ws.sender == m.ws.sender && r.ws.started == m.ws.started && Tellings(r.ws.log) == Tellings(m.ws.log)
      && Resets(r.outbox) == Resets(m.outbox)
      && ShutDowns(r.ws.log) == ShutDowns(m.ws.log) + Addressed(m.ws.sender, Times(n))
  {
    EndingLeaves(m, env);
    HandsTwice(m.(link := Closed));
    hide OnCaller, HandToWs;
  }

  lemma HandsTwice(m: Manager)
    ensures var told := HandToWs(m, ShutDown);
      var twice := HandToWs(told, ShutDown);
      && Tellings(told.ws.log) == Tellings(m.ws.log) && Tellings(twice.ws.log) == Tellings(m.ws.log)
      && ShutDowns(m.ws.log) == ShutDowns(m.ws.log) + Addressed(m.ws.sender, Times(0))
      && ShutDowns(told.ws.log) == ShutDowns(m.ws.log) + Addressed(m.ws.sender, Times(1))
      && ShutDowns(twice.ws.log) == ShutDowns(m.ws.log) + Addressed(m.ws.sender, Times(2))
  {
    var told := HandToWs(m, ShutDown);
    HandsOne(m, ShutDown);
    HandsOne(told, ShutDown);
    HandsOnSilently(m, told, HandToWs(told, ShutDown), 1, 1);
    HandsNothing(m, m);
    assert Addressed(m.ws.sender, []) == [];
    hide Tellings, ShutDowns, Addressed, Times, HandToWs;
  }
}
