/** The invariant of every settled run: how the manager's fields and the machine
    agree, between two outside events and at every point in between. */
module DrainedInvariant {
  import opened Wrappers
  import opened StateMachine
  import opened ManagerModel
  import opened Drained

  // --------------------------------------------------------------- the invariant

  /** The output still to be handled: never more than one, and the last update. */
  function Tail(pend: seq<Update>): Option<Output> {
    if pend != [] && pend[|pend| - 1].Emitted? then Some(pend[|pend| - 1].output) else None
  }

  predicate OneOutput(pend: seq<Update>) {
    forall k | 0 <= k < |pend| - 1 :: !pend[k].Emitted?
  }

  /** Facts that hold whatever is pending. */
  predicate Common(m: Manager) {
    && m.link == Open && m.running
    && (KeepsTarget(m.reconnect.flow) ==> m.connection.Some?)
    && (m.reconnect.flow == WaitingForTvOnNetwork ==> AutoReconnect(m))
    && (m.connection.Some? ==> m.connection.value.wsUrl.Some?)
  }

  predicate HasChannels(ws: WsEnds) {
    ws.sender.Some? && ws.receiver.Some?
  }

  /** Every channel end belongs to the handler started last, for this URL. */
  predicate OwnsHandler(ws: WsEnds, url: Url) {
    var id := |ws.started| - 1;
    && ws.started != [] && ws.started[id] == url
    && ws.sender == Some(id) && ws.receiver == Some(id) && ws.joinHandle == Some(id)
  }

  /** The handlers and the target agree with the machine. */
  predicate Grounded(m: Manager, fsm: State) {
    && Real(fsm)
    && (m.connection.Some? ==> HasChannels(m.ws))
    && (if fsm == Disconnected then m.ws.joinHandle == None
        else OwnsHandler(m.ws, fsm.url) && m.connection.Some? && m.connection.value.wsUrl == Some(fsm.url))
  }

  predicate FlowWhileConnecting(m: Manager) {
    && m.reconnect.flow != WaitingForTvOnNetwork
    && (!InitialConnectRetries(m) ==> m.reconnect.flow == Inactive)
  }

  /** The reconnect flow and the pairing flag agree with the machine. */
  predicate InPhase(m: Manager, fsm: State) {
    && (fsm.Connecting? ==> FlowWhileConnecting(m))
    && (fsm.Connected? || fsm.Pairing? || fsm.Initializing? || fsm.Communicating? ==> m.reconnect.flow == Inactive)
    && (fsm.Pairing? ==> m.pairing)
    && (fsm.Initializing? || fsm.Communicating? ==> !m.pairing)
  }

  /** What is true while the given output waits to be handled. */
  predicate Awaiting(m: Manager, fsm: State, o: Output) {
    match o
    case ConnectToTv(url) =>
      && fsm == Connecting(url) && m.ws.joinHandle == None && FlowWhileConnecting(m)
      && m.connection.Some? && m.connection.value.wsUrl == Some(url)
    case SendRegisterPayload => fsm.Connected? && Grounded(m, fsm)
    case PairWithTv => fsm.Pairing? && Grounded(m, fsm) && m.reconnect.flow == Inactive
    case InitializeConnection => fsm.Initializing? && Grounded(m, fsm) && m.reconnect.flow == Inactive
    case PassCommand(_) => fsm.Communicating? && Grounded(m, fsm) && InPhase(m, fsm)
    case DisconnectFromTv => fsm.Disconnecting? && Grounded(m, fsm)
    case HandleConnectError => fsm == Disconnected && m.ws.joinHandle.Some? && HasChannels(m.ws)
    case HandleSuccessfulDisconnect => fsm == Disconnected && m.ws.joinHandle.Some? && HasChannels(m.ws)
    case HandleDisconnectError => fsm == Disconnected && m.ws.joinHandle.Some? && HasChannels(m.ws)
  }

  predicate Agrees(m: Manager, fsm: State, tail: Option<Output>) {
    match tail
    case None => Grounded(m, fsm) && InPhase(m, fsm)
    case Some(o) => Awaiting(m, fsm, o)
  }

  predicate Inv(b: Settled) {
    && Common(b.m)
    && b.m.outbox == []
    && OneOutput(b.pend)
    && Latest(b.m.status, b.pend) == b.fsm
    && Agrees(b.m, b.fsm, Tail(b.pend))
  }

  // ----------------------------------------------- delivering what a step sends

  predicate AllResets(ins: seq<Input>) {
    forall i | i in ins :: i == Reset
  }

  lemma {:induction false} RunResets(s: State, rs: seq<Input>)
    requires Real(s) && AllResets(rs)
    ensures RunState(s, rs) == if rs == [] then s else Disconnected
    ensures forall u | u in RunUpdates(s, rs) :: u.NewState?
    decreases |rs|
  {
    if rs != [] {
      assert rs[0] in rs;
      assert forall i | i in rs[1..] :: i in rs;
      RunResets(Next(s, rs[0]), rs[1..]);
    }
  }

  lemma StatusFollows(m: Manager, fsm: State)
    requires m.status == fsm
    ensures Latest(m.status, RunUpdates(fsm, m.outbox)) == RunState(fsm, m.outbox)
  {
    MirrorsMachine(fsm, m.outbox);
  }

  lemma TailOfStates(ups: seq<Update>)
    requires forall u | u in ups :: u.NewState?
    ensures OneOutput(ups) && Tail(ups) == None
  {
    if ups != [] {
      assert ups[|ups| - 1] in ups;
    }
    forall k | 0 <= k < |ups|
      ensures !ups[k].Emitted?
    {
      assert ups[k] in ups;
    }
  }

  lemma TailAfterStates(ups: seq<Update>, s: State, i: Input)
    requires forall u | u in ups :: u.NewState?
    ensures OneOutput(ups + Emit(s, i)) && Tail(ups + Emit(s, i)) == Tail(Emit(s, i))
  {
    hide Transition, OutputOf;
    var all := ups + Emit(s, i);
    forall k | 0 <= k < |all| - 1
      ensures !all[k].Emitted?
    {
      if k < |ups| {
        assert all[k] == ups[k] && ups[k] in ups;
      } else {
        assert all[k] == Emit(s, i)[k - |ups|];
      }
    }
    assert all[|all| - 1] == Emit(s, i)[|Emit(s, i)| - 1];
  }

  /** A step that sends nothing but resets settles. */
  lemma ResetsSettle(m: Manager, fsm: State)
    requires Common(m) && m.status == fsm && AllResets(m.outbox) && Real(fsm)
    requires m.outbox == [] ==> Grounded(m, fsm) && InPhase(m, fsm)
    requires m.outbox != [] ==> m.ws.joinHandle == None && (m.connection.Some? ==> HasChannels(m.ws))
    ensures Inv(Deliver(m, fsm, []))
  {
    hide Common, OneOutput, Tail, RunUpdates, Emit, Next;
    RunResets(fsm, m.outbox);
    StatusFollows(m, fsm);
    TailOfStates(RunUpdates(fsm, m.outbox));
    assert [] + RunUpdates(fsm, m.outbox) == RunUpdates(fsm, m.outbox);
    assert Agrees(m, RunState(fsm, m.outbox), None);
    hide Agrees;
    AgreesWithoutOutbox(m, RunState(fsm, m.outbox), None);
    CommonWithoutOutbox(m);
  }

  /** A step that sends resets and then one more input settles if the machine's
      answer to that input is agreed on. */
  lemma InputSettles(m: Manager, fsm: State, rs: seq<Input>, i: Input)
    requires Common(m) && m.status == fsm && m.outbox == rs + [i] && AllResets(rs) && Real(fsm)
    requires var s := if rs == [] then fsm else Disconnected;
      Agrees(m, Next(s, i), Tail(Emit(s, i)))
    ensures Inv(Deliver(m, fsm, []))
  {
    hide Common, Agrees, OneOutput, Tail, RunUpdates, Emit, Next;
    var s := if rs == [] then fsm else Disconnected;
    RunResets(fsm, rs);
    RunAppend(fsm, rs, [i]);
    RunOne(s, i);
    StatusFollows(m, fsm);
    TailAfterStates(RunUpdates(fsm, rs), s, i);
    assert [] + RunUpdates(fsm, m.outbox) == RunUpdates(fsm, m.outbox);
    AgreesWithoutOutbox(m, Next(s, i), Tail(Emit(s, i)));
    CommonWithoutOutbox(m);
  }

  lemma AgreesWithoutOutbox(m: Manager, fsm: State, tail: Option<Output>)
    ensures Agrees(m.(outbox := []), fsm, tail) == Agrees(m, fsm, tail)
  {
  }

  lemma CommonWithoutOutbox(m: Manager)
    ensures Common(m.(outbox := [])) == Common(m)
  {
  }
}
