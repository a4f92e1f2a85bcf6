/** When the wired system never dials again unasked. */
module WiredFinality {
  import opened Wrappers
  import opened StateMachine
  import opened ManagerModel
  import opened ManagerFacts
  import opened Async
  import opened Drained
  import opened DrainedInvariant
  import opened DrainedSteps
  import opened DrainedFinality
  import opened DrainedSpent
  import opened DrainedPairing
  import opened HandlerLine
  import opened Wired
  import opened WiredSteps

  // ------------------------------------------------------------ dialling unasked

  /** No connection is granted to the caller, and a given output is not handled. */
  predicate Unasked(w: Wired, mv: Move, avoiding: Option<Output>) {
    mv.Take? ==> !Requests(w.b, mv.step) && (avoiding.Some? ==> !Handles(w.b, mv.step, avoiding.value))
  }

  predicate DialsBy(w: Wired, mv: Move)
    requires CanMove(w, mv)
  {
    mv.Take? && Dials(w.b, mv.step)
  }

  /** The run asks for nothing, and somewhere dials. */
  predicate DialsUnasked(w: Wired, mvs: seq<Move>, avoiding: Option<Output>)
    decreases |mvs|
  {
    && mvs != [] && CanMove(w, mvs[0]) && Unasked(w, mvs[0], avoiding)
    && (DialsBy(w, mvs[0]) || DialsUnasked(AfterMove(w, mvs[0]), mvs[1..], avoiding))
  }

  ghost predicate CanDial(w: Wired, avoiding: Option<Output>) {
    exists mvs :: DialsUnasked(w, mvs, avoiding)
  }

  // ------------------------------------------------------- at rest, Disconnected

  /** What brings a target back from Disconnected: it reconnects by itself, pings are
      sent, and there is a URL to dial, or a connection test whose failure can read
      one from disk, or a payload left unread that makes such a test possible. */
  predicate ComesBack(m: Manager, inbox: seq<WsUpdate>) {
    && AutoReconnect(m) && Pings(m)
    && (m.wsUrl.Some? || m.initialized || WsPayload(Volume) in inbox)
  }

  predicate Gone(w: Wired) {
    IsDown(w.b) && !ComesBack(w.b.m, w.line.inbox)
  }

  lemma {:induction false} DownEmitsNothing(ins: seq<Input>)
    requires NoConnect(ins)
    ensures RunState(Disconnected, ins) == Disconnected
    ensures forall u | u in RunUpdates(Disconnected, ins) :: !u.Emitted?
    decreases |ins|
  {
    if ins != [] {
      assert ins[0] in ins;
      assert forall i | i in ins[1..] :: i in ins;
      DownEmitsNothing(ins[1..]);
    }
  }

  lemma LastIsNoOutput(pend: seq<Update>)
    requires forall u | u in pend :: !u.Emitted?
    ensures Tail(pend) == None
  {
    if pend != [] {
      assert pend[|pend| - 1] in pend;
    }
  }

  lemma NoOutputPending(pend: seq<Update>)
    requires OneOutput(pend) && Tail(pend) == None
    ensures forall u | u in pend :: !u.Emitted?
  {
  }

  lemma DownStays(b: Settled, step: Step)
    requires Inv(b) && CanStep(b, step) && IsDown(b) && NoConnect(Reacted(b, step).outbox)
    ensures IsDown(After(b, step))
  {
    var rest := if step.HandleUpdate? then b.pend[1..] else [];
    var sent := Reacted(b, step).outbox;
    NoOutputPending(b.pend);
    assert forall u | u in rest :: u in b.pend;
    hide Reacted, Inv;
    DownEmitsNothing(sent);
    LastIsNoOutput(rest + RunUpdates(Disconnected, sent));
  }

  /** Nothing to dial, and nothing that could supply it. */
  predicate NoUrl(m: Manager, inbox: seq<WsUpdate>) {
    m.wsUrl.None? && !m.initialized && WsPayload(Volume) !in inbox
  }

  predicate StaysGone(r: Manager, inbox: seq<WsUpdate>) {
    NoConnect(r.outbox) && !ComesBack(r, inbox)
  }

  lemma ResetForgets(m: Manager, disk: Disk)
    requires m.link == Open && !KeepsTarget(m.reconnect.flow)
    ensures ForceReset(m, disk).connection == None && ForceReset(m, disk).outbox == m.outbox + [Reset]
  {
  }

  lemma ReadingStaysGone(m: Manager, inbox: seq<WsUpdate>, env: Env)
    requires m.link == Open && m.outbox == [] && inbox != [] && NoUrl(m, inbox)
    ensures StaysGone(OnWs(m, inbox[0], env), inbox[1..])
  {
    var u := inbox[0];
    assert u in inbox && forall v | v in inbox[1..] :: v in inbox;
    HearingSends(m, u, env);
    if u.WsPayload? {
      OnlyVolumeInitializes(m, u.response);
    }
    PreparedUrl(m, env);
    hide OnResponse, OptionallyPrepareForReconnect;
  }

  lemma OnlyVolumeInitializes(m: Manager, r: TvResponse)
    requires m.link == Open && m.outbox == [] && r != Volume
    ensures OnResponse(m, r).initialized == m.initialized && OnResponse(m, r).wsUrl == m.wsUrl
  {
    ResponseSendsOne(m, r);
  }

  lemma PreparedUrl(m: Manager, env: Env)
    ensures var r := OptionallyPrepareForReconnect(m, env.firstLoad, env.secondLoad);
      r.initialized == m.initialized && r.wsUrl == m.wsUrl && r.link == m.link
  {
  }

  lemma NoticingStaysGone(m: Manager, inbox: seq<WsUpdate>, onNetwork: bool, env: Env)
    requires m.link == Open && m.outbox == [] && m.status == Disconnected && NoUrl(m, inbox)
    ensures StaysGone(OnNetwork(m, onNetwork, env), inbox)
  {
    var m1 := Noticed(m, onNetwork);
    ResetForgets(SetFlow(SetFlow(m1, Active), Inactive), env.resetDisk);
    hide ForceReset;
  }

  lemma AskingStaysGone(m: Manager, inbox: seq<WsUpdate>, msg: ManagerMessage, env: Env)
    requires m.link == Open && m.outbox == [] && m.status == Disconnected && NoUrl(m, inbox)
    requires msg != ShutDownManager && !AcceptsRequest(m, FromCaller(msg))
    ensures StaysGone(OnCaller(m, msg, env), inbox)
  {
    if msg.CancelReconnect? {
      ResetForgets(SetFlow(m, Cancelled), env.answer.disk);
    }
    hide ForceReset;
  }

  lemma NoUrlStaysGone(w: Wired, step: Step, farewell: seq<WsUpdate>)
    requires WiredInv(w) && CanTake(w, step, farewell) && IsDown(w.b) && NoUrl(w.b.m, w.line.inbox)
    requires !Requests(w.b, step)
    ensures var t := AfterMove(w, Take(step, farewell));
      NoConnect(Reacted(w.b, step).outbox) && !ComesBack(t.b.m, t.line.inbox)
  {
    var b := w.b;
    var rest := if step.HandleUpdate? then b.pend[1..] else [];
    DeliverKeeps(Reacted(b, step), b.fsm, rest);
    ReadingIsCoherent(w.line);
    assert b.m.ws.joinHandle.None?;
    assert w.line.inbox + [] == w.line.inbox && w.line.inbox[|w.line.inbox|..] == [];
    match step {
      case HandleUpdate(env) =>
        NoOutputPending(b.pend);
        assert b.pend[0] in b.pend;
      case HandleExternal(ev, env) =>
        match ev {
          case FromWs(u) =>
            ReadingStaysGone(b.m, w.line.inbox, env);
            assert w.line.inbox[1..] + [] == w.line.inbox[1..];
          case FromCaller(msg) => AskingStaysGone(b.m, w.line.inbox, msg, env);
          case FromNetwork(onNetwork) => NoticingStaysGone(b.m, w.line.inbox, onNetwork, env);
        }
    }
    hide OnExternal, OnWs, OnCaller, OnNetwork, Inv, Deliver;
  }

  lemma CutIsGone(t: Settled, inbox: seq<WsUpdate>)
    requires Hushed(t) && IsDown(t)
    ensures !ComesBack(t.m, inbox)
  {
  }

  lemma DownIsHushed(b: Settled)
    requires IsDown(b) && Cut(b.m)
    ensures Hushed(b)
  {
  }

  lemma GoneStays(w: Wired, mv: Move)
    requires WiredInv(w) && CanMove(w, mv) && Gone(w) && Unasked(w, mv, None)
    ensures Gone(AfterMove(w, mv)) && !DialsBy(w, mv)
  {
    assert w.line.stage.Ended?;
    if mv.Take? {
      var t := After(w.b, mv.step);
      if Cut(w.b.m) {
        DownIsHushed(w.b);
        HushedStep(w.b, mv.step);
        hide Inv, After, Hushed, ComesBack, Reacted, LineAfter;
        DownStays(w.b, mv.step);
        CutIsGone(t, AfterMove(w, mv).line.inbox);
      } else {
        NoUrlStaysGone(w, mv.step, mv.farewell);
        hide Inv, After, Hushed, ComesBack, Reacted, LineAfter;
        DownStays(w.b, mv.step);
      }
    }
  }

  // --------------------------------------------- a connection that has come about

  /** Nothing can make the attempt fail any more, or the disconnect complete: the
      handler has already said Connected, or its last word has been read. */
  predicate Decided(fsm: State, line: Line) {
    (fsm.Connecting? && WsConnected in line.inbox) || (fsm.Disconnecting? && line.heard.Ended?)
  }

  predicate Landed(w: Wired) {
    && Decided(w.b.fsm, w.line) && Tail(w.b.pend) == None
    && w.b.m.reconnect.flow == Active && w.b.m.manualDisconnect && !w.b.m.checker.operational
  }

  lemma LastWordIsLast(line: Line)
    requires Coherent(line) && line.heard.Ended?
    ensures line.inbox == [] && line.stage.Ended?
  {
    EndedIsEmpty(line);
  }

  lemma ConnectedRulesOutFailure(line: Line)
    requires Coherent(line) && line.inbox != [] && (line.heard.Starting? || line.heard.Dialling?)
    ensures WsConnected in line.inbox ==> line.inbox[0].WsIdle? || line.inbox[0].WsConnected?
    ensures WsConnected in line.inbox && line.inbox[0].WsIdle? ==> WsConnected in line.inbox[1..]
  {
    if line.inbox[0].WsConnectError? {
      EndedIsEmpty(Line(Ended, line.inbox[1..], line.stage, line.open));
      assert line.inbox == [WsConnectError] + line.inbox[1..];
    }
  }

  lemma LandedRegisters(m: Manager, fsm: State, env: Env)
    requires Resting(m, fsm) && fsm.Connecting? && m.manualDisconnect && !m.checker.operational
    ensures var t := Deliver(OnWs(m, WsConnected, env), fsm, []);
      Hushed(t) && ManualOrDown(t) && NoConnect(OnWs(m, WsConnected, env).outbox)
  {
    var r := OnWs(m, WsConnected, env);
    assert r == m.(outbox := [AttemptRegister]);
    RunOne(fsm, AttemptRegister);
    assert [] + Emit(fsm, AttemptRegister) == Emit(fsm, AttemptRegister);
    SpentWithoutOutbox(r, Next(fsm, AttemptRegister), Tail(Emit(fsm, AttemptRegister)));
    hide Inv, Quiet, Grounded;
  }

  lemma LandedReads(w: Wired, env: Env)
    requires WiredInv(w) && Landed(w) && w.b.fsm.Connecting?
    requires CanTake(w, HandleExternal(FromWs(w.line.inbox[0]), env), [])
    ensures var t := AfterMove(w, Take(HandleExternal(FromWs(w.line.inbox[0]), env), []));
      (Landed(t) || Hushed(t.b)) && ManualOrDown(t.b) && !Dials(w.b, HandleExternal(FromWs(w.line.inbox[0]), env))
  {
    var m, fsm := w.b.m, w.b.fsm;
    ConnectedRulesOutFailure(w.line);
    ReadingIsCoherent(w.line);
    assert w.line.inbox[1..] + [] == w.line.inbox[1..];
    if w.line.inbox[0].WsIdle? {
      LandedAfterNothing(m, fsm);
      hide Inv, Hushed, Deliver, Tail;
    } else {
      LandedRegisters(m, fsm, env);
      hide Inv, Hushed, Landed, OnWs, Deliver, ManualOrDown;
    }
  }

  lemma LandedAfterNothing(m: Manager, fsm: State)
    requires m.reconnect.flow == Active && m.outbox == []
    ensures var t := Deliver(m, fsm, []); t.m == m && t.fsm == fsm && Tail(t.pend) == None
  {
    NothingSent(m, fsm, []);
  }

  lemma LandedAfterRefusal(m: Manager, fsm: State, i: Input)
    requires m.outbox == [i] && Transition(fsm, i) == None
    ensures var t := Deliver(m, fsm, []); t.m == m.(outbox := []) && t.fsm == fsm && Tail(t.pend) == None
  {
    RunOne(fsm, i);
    assert [] + Emit(fsm, i) == [TransitionError(i, fsm)];
  }

  lemma LandedIsAsked(m: Manager, msg: ManagerMessage, env: Env, fsm: State)
    requires Resting(m, fsm) && (fsm.Connecting? || fsm.Disconnecting?) && m.reconnect.flow == Active
    requires m.manualDisconnect && !m.checker.operational && msg != ShutDownManager
    ensures var r := OnCaller(m, msg, env);
      var t := Deliver(r, fsm, []);
      && NoConnect(r.outbox) && ManualOrDown(t)
      && (Hushed(t) || (t.fsm == fsm && Tail(t.pend) == None && t.m.reconnect.flow == Active && t.m.manualDisconnect &&
                        t.m.checker == m.checker && t.m.ws.joinHandle == m.ws.joinHandle))
  {
    assert Real(fsm) && m.link == Open && m.outbox == [] && m.status == fsm;
    LandedAfterNothing(m, fsm);
    hide Hushed, Grounded, Tail, Quiet, RunUpdates;
    var r := OnCaller(m, msg, env);
    match msg
    case CancelReconnect =>
      RestQuiets(r, r, fsm);
      QuietIsHushed(r, r, fsm);
    case CallerDisconnect => LandedAfterRefusal(r, fsm, StateMachine.Disconnect);
    case SendTvCommand(c) => LandedAfterRefusal(r, fsm, SendCommand(c));
    case CallerTestConnection =>
      if m.initialized && m.ws.sender.Some? && !env.answer.sent {
        SpentAfterReset(m, HandToWs(m, TestConnection), env.answer.disk, fsm);
      } else {
        LandedAfterNothing(r, fsm);
      }
    case _ =>
  }

  lemma LandedUpdates(w: Wired, env: Env)
    requires WiredInv(w) && Landed(w) && CanTake(w, HandleUpdate(env), [])
    ensures Landed(AfterMove(w, Take(HandleUpdate(env), []))) && !Dials(w.b, HandleUpdate(env))
  {
    var b := w.b;
    NoOutputPending(b.pend);
    assert b.pend[0] in b.pend;
    SkippedUpdate(b.m.status, b.pend);
    NothingSent(OnUpdate(b.m, b.pend[0], env), b.fsm, b.pend[1..]);
    assert w.line.inbox + [] == w.line.inbox;
    hide Tail, Inv;
  }

  lemma LandedAsks(w: Wired, msg: ManagerMessage, env: Env, farewell: seq<WsUpdate>)
    requires WiredInv(w) && Landed(w) && CanTake(w, HandleExternal(FromCaller(msg), env), farewell)
    ensures var t := AfterMove(w, Take(HandleExternal(FromCaller(msg), env), farewell));
      (Landed(t) || Hushed(t.b)) && ManualOrDown(t.b) && !Dials(w.b, HandleExternal(FromCaller(msg), env))
  {
    LandedIsAsked(w.b.m, msg, env, w.b.fsm);
    DeliverKeeps(OnCaller(w.b.m, msg, env), w.b.fsm, []);
    assert w.line.inbox + [] == w.line.inbox;
    hide OnCaller, Hushed, Deliver, Tail, Inv;
  }

  lemma LandedStays(w: Wired, mv: Move)
    requires WiredInv(w) && CanMove(w, mv) && Landed(w)
    ensures (Landed(AfterMove(w, mv)) || Hushed(AfterMove(w, mv).b)) && !DialsBy(w, mv)
    ensures ManualOrDown(AfterMove(w, mv).b)
  {
    match mv
    case Speak(u) =>
      if w.b.fsm.Disconnecting? {
        LastWordIsLast(w.line);
      }
      assert WsConnected in w.line.inbox ==> WsConnected in w.line.inbox + [u];
    case Return =>
    case Take(step, farewell) =>
      match step {
        case HandleUpdate(env) =>
          assert farewell == [] by { LandedHolds(w, env, farewell); }
          LandedUpdates(w, env);
          hide Inv, After, Hushed, Landed;
        case HandleExternal(ev, env) =>
          match ev {
            case FromWs(u) =>
              if w.b.fsm.Disconnecting? {
                LastWordIsLast(w.line);
              }
              HearingSends(w.b.m, u, env);
              LandedReads(w, env);
              hide Inv, After, Hushed, Landed;
            case FromCaller(msg) =>
              hide Inv, After, Hushed, Landed;
              LandedAsks(w, msg, env, farewell);
            case FromNetwork(_) =>
          }
      }
  }

  lemma LandedHolds(w: Wired, env: Env, farewell: seq<WsUpdate>)
    requires WiredInv(w) && Landed(w) && CanTake(w, HandleUpdate(env), farewell)
    ensures farewell == []
  {
    NoOutputPending(w.b.pend);
    assert w.b.pend[0] in w.b.pend;
  }

  // ------------------------------------------------------------------- every run

  /** Nothing dials from here, unless asked for or by way of the avoided output. */
  predicate Final(w: Wired, avoiding: Option<Output>) {
    || Gone(w)
    || (ManualOrDown(w.b) && (Hushed(w.b) || Landed(w)))
    || (avoiding == Some(SendRegisterPayload) && Quiet(w.b))
    || (avoiding == Some(InitializeConnection) && StillPairing(w.b) && Cut(w.b.m))
  }

  lemma CutDownIsGone(w: Wired)
    requires IsDown(w.b) && Cut(w.b.m)
    ensures Gone(w)
  {
  }

  lemma FinalStays(w: Wired, mv: Move, avoiding: Option<Output>)
    requires WiredInv(w) && CanMove(w, mv) && Final(w, avoiding) && Unasked(w, mv, avoiding)
    ensures Final(AfterMove(w, mv), avoiding) && !DialsBy(w, mv)
  {
    MoveIsStep(w, mv);
    hide Inv, After, Hushed, Landed, Gone, Quiet, StillPairing, Cut, AcceptsRequest, LineAfter, IsDown, ManualOrDown;
    if Gone(w) {
      GoneStays(w, mv);
    } else if ManualOrDown(w.b) && Hushed(w.b) {
      if mv.Take? {
        HushedStep(w.b, mv.step);
      }
    } else if ManualOrDown(w.b) && Landed(w) {
      LandedStays(w, mv);
    } else if mv.Take? {
      if avoiding == Some(SendRegisterPayload) && Quiet(w.b) {
        StepQuiets(w.b, mv.step);
      } else {
        PairingStep(w.b, mv.step);
        if IsDown(After(w.b, mv.step)) {
          CutDownIsGone(AfterMove(w, mv));
        }
      }
    }
  }

  lemma {:induction false} FinalRun(w: Wired, mvs: seq<Move>, avoiding: Option<Output>)
    requires WiredInv(w) && Final(w, avoiding)
    ensures !DialsUnasked(w, mvs, avoiding)
    decreases |mvs|
  {
    hide WiredInv, Final, CanMove, AfterMove, Unasked, DialsBy;
    if mvs != [] && CanMove(w, mvs[0]) && Unasked(w, mvs[0], avoiding) {
      FinalStays(w, mvs[0], avoiding);
      MoveKeeps(w, mvs[0]);
      FinalRun(AfterMove(w, mvs[0]), mvs[1..], avoiding);
    }
  }

  /** Main result: from a final state no run dials unasked. */
  lemma FinalNeverDials(w: Wired, avoiding: Option<Output>)
    requires WiredInv(w) && Final(w, avoiding)
    ensures !CanDial(w, avoiding)
  {
    hide WiredInv, Final, DialsUnasked;
    forall mvs ensures !DialsUnasked(w, mvs, avoiding) {
      FinalRun(w, mvs, avoiding);
    }
  }
}
