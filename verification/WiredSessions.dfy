/** Whether a session comes to be communicating. */
module WiredSessions {
  import opened Wrappers
  import opened StateMachine
  import opened ManagerModel
  import opened ManagerFacts
  import opened Async
  import opened Drained
  import opened DrainedInvariant
  import opened DrainedFinality
  import opened HandlerLog
  import opened HandlerLine
  import opened Wired
  import opened WiredSteps
  import opened WiredFinality
  import opened WiredDialling
  import opened WiredLoss
  import opened WiredProperties
  import DS = DrainedSchedule

  /** Initializing stays so until it turns to Communicating. */
  predicate Communicates(w: Wired, mvs: seq<Move>)
    decreases |mvs|
  {
    && mvs != [] && CanMove(w, mvs[0])
    && var t := AfterMove(w, mvs[0]);
       t.b.fsm.Communicating? || (t.b.fsm.Initializing? && Communicates(t, mvs[1..]))
  }

  ghost predicate CanCommunicate(w: Wired) {
    exists mvs :: Communicates(w, mvs)
  }

  /** A volume comes before anything that gives the connection up, or may still come. */
  predicate AwaitsVolume(inbox: seq<WsUpdate>, stage: Stage)
    decreases |inbox|
  {
    if inbox == [] then stage.Talking?
    else inbox[0] == WsPayload(Volume) || (!Troubles(inbox[0]) && AwaitsVolume(inbox[1..], stage))
  }

  // ----------------------------------------------------------------- when it cannot

  /** Initializing, with no volume to come that would be heard. */
  predicate Stuck(w: Wired) {
    && w.b.fsm.Initializing? && Tail(w.b.pend) == None
    && (w.b.m.initialized || !AwaitsVolume(w.line.inbox, w.line.stage))
  }

  lemma {:induction false} SayingKeepsStuck(inbox: seq<WsUpdate>, stage: Stage, u: WsUpdate)
    requires !AwaitsVolume(inbox, stage) && Says(stage, u).Some? && !stage.Starting? && !stage.Dialling?
    ensures !AwaitsVolume(inbox + [u], Says(stage, u).value)
    decreases |inbox|
  {
    if inbox == [] {
      assert [] + [u] == [u] && [u][1..] == [];
    } else {
      Front(inbox, [u]);
      if !Troubles(inbox[0]) && inbox[0] != WsPayload(Volume) {
        SayingKeepsStuck(inbox[1..], stage, u);
      }
    }
  }

  predicate StartsNothing(ins: seq<Input>) {
    forall i | i in ins :: !i.Connect? && !i.StartCommunication?
  }

  /** Without a start of communication Initializing is kept, or left for the way down. */
  lemma {:induction false} InitializingRuns(s: State, ins: seq<Input>)
    requires StartsNothing(ins) && (s.Initializing? || s.Disconnecting? || s == Disconnected)
    ensures var t := RunState(s, ins); t.Initializing? || t.Disconnecting? || t == Disconnected
    ensures Resets(ins) > 0 ==> !RunState(s, ins).Initializing?
    ensures !s.Initializing? ==> !RunState(s, ins).Initializing?
    ensures RunState(s, ins).Initializing? ==> forall u | u in RunUpdates(s, ins) :: !u.Emitted?
    decreases |ins|
  {
    if ins != [] {
      assert ins[0] in ins && forall i | i in ins[1..] :: i in ins;
      InitializingRuns(Next(s, ins[0]), ins[1..]);
      assert ins == [ins[0]] + ins[1..];
    }
  }

  lemma StuckDelivered(r: Manager, fsm: State, pend: seq<Update>)
    requires StartsNothing(r.outbox) && fsm.Initializing? && forall u | u in pend :: !u.Emitted?
    ensures var t := Deliver(r, fsm, pend);
      && !t.fsm.Communicating? && t.m == r.(outbox := [])
      && (t.fsm.Initializing? ==> Tail(t.pend) == None && Resets(r.outbox) == 0)
  {
    InitializingRuns(fsm, r.outbox);
    var ups := pend + RunUpdates(fsm, r.outbox);
    if RunState(fsm, r.outbox).Initializing? {
      LastIsNoOutput(ups);
    }
    hide Tail, RunUpdates, RunState, Resets;
  }

  /** What one handler makes of a manager while Initializing. */
  predicate StaysStuck(m: Manager, r: Manager) {
    StartsNothing(r.outbox) && (Resets(r.outbox) == 0 ==> r.initialized == m.initialized)
  }

  lemma NoResetIn(m: Manager, r: Manager)
    requires r.outbox == [] && r.initialized == m.initialized
    ensures StaysStuck(m, r)
  {
  }

  lemma AskingStaysStuck(m: Manager, msg: ManagerMessage, env: Env)
    requires m.link == Open && m.outbox == [] && m.status.Initializing? && m.reconnect.flow == Inactive
    requires msg != ShutDownManager
    ensures StaysStuck(m, OnCaller(m, msg, env))
  {
    hide ForceReset;
    match msg
    case CallerTestConnection =>
      if m.initialized && m.ws.sender.Some? && !env.answer.sent {
        ResetFacts(HandToWs(m, TestConnection), env.answer.disk);
        assert [] + [Reset] == [Reset];
        CollectOne(ResetIn, Reset);
      }
    case _ =>
  }

  lemma HearingStaysStuck(m: Manager, u: WsUpdate, env: Env)
    requires m.link == Open && m.outbox == [] && (m.initialized || u != WsPayload(Volume))
    ensures StaysStuck(m, OnWs(m, u, env))
  {
    if u.WsPayload? {
      ResponseSends(m, u.response);
      VolumeOnly(m, u.response);
    }
    DS.PreparedFrame(m, env);
    hide OnResponse, OptionallyPrepareForReconnect, Resets;
  }

  lemma VolumeOnly(m: Manager, r: TvResponse)
    requires m.link == Open && m.outbox == [] && (m.initialized || r != Volume)
    ensures OnResponse(m, r).initialized == m.initialized
    ensures forall i | i in OnResponse(m, r).outbox :: !i.StartCommunication? && !i.Connect?
  {
  }

  lemma NoticingStaysStuck(m: Manager, onNetwork: bool, env: Env)
    requires m.link == Open && m.outbox == [] && m.status.Initializing? && m.reconnect.flow == Inactive
    ensures StaysStuck(m, OnNetwork(m, onNetwork, env))
  {
    hide Resets, InitiateReconnect;
  }

  lemma StuckFacts(w: Wired)
    requires WiredInv(w) && Stuck(w)
    ensures w.b.m.link == Open && w.b.m.outbox == [] && w.b.m.reconnect.flow == Inactive
    ensures w.b.m.ws.joinHandle.Some?
    ensures w.b.pend == [] ==> w.b.m.status == w.b.fsm
    ensures forall u | u in w.b.pend :: !u.Emitted?
  {
    NoOutputPending(w.b.pend);
  }

  lemma StuckReacts(w: Wired, step: Step, farewell: seq<WsUpdate>)
    requires WiredInv(w) && Stuck(w) && CanTake(w, step, farewell)
    ensures StaysStuck(w.b.m, Reacted(w.b, step))
  {
    StuckFacts(w);
    hide WiredInv, StaysStuck, Tail;
    match step {
      case HandleUpdate(env) =>
        assert w.b.pend[0] in w.b.pend;
        NoResetIn(w.b.m, OnUpdate(w.b.m, w.b.pend[0], env));
      case HandleExternal(ev, env) =>
        match ev {
          case FromCaller(msg) => AskingStaysStuck(w.b.m, msg, env);
          case FromWs(u) =>
            assert w.b.m.initialized || u != WsPayload(Volume);
            HearingStaysStuck(w.b.m, u, env);
          case FromNetwork(onNetwork) => NoticingStaysStuck(w.b.m, onNetwork, env);
        }
    }
    hide OnCaller, OnWs, OnNetwork;
  }

  lemma StuckGoesOn(w: Wired, step: Step, farewell: seq<WsUpdate>)
    requires WiredInv(w) && Stuck(w) && CanTake(w, step, farewell)
    ensures var t := After(w.b, step);
      && !t.fsm.Communicating?
      && (t.fsm.Initializing? ==> Tail(t.pend) == None && t.m.initialized == w.b.m.initialized)
  {
    var rest := if step.HandleUpdate? then w.b.pend[1..] else [];
    StuckFacts(w);
    StuckReacts(w, step, farewell);
    assert forall u | u in rest :: u in w.b.pend;
    hide Reacted, Resets, Tail, WiredInv;
    StuckDelivered(Reacted(w.b, step), w.b.fsm, rest);
  }

  /** A message read while stuck gives the connection up, or is no volume in time. */
  lemma StuckReads(w: Wired, u: WsUpdate, env: Env)
    requires WiredInv(w) && Stuck(w) && CanTake(w, HandleExternal(FromWs(u), env), [])
    requires After(w.b, HandleExternal(FromWs(u), env)).fsm.Initializing?
    ensures !w.b.m.initialized ==> !AwaitsVolume(w.line.inbox[1..], w.line.stage)
  {
    if Troubles(u) {
      UpRests(w);
      TroubleIsHeard(w.b.m, u, env, w.b.fsm);
    }
    hide WiredInv, OnWs, Deliver;
  }

  /** Still Initializing, the line is as it was, or one message further. */
  lemma StuckLine(w: Wired, step: Step, farewell: seq<WsUpdate>)
    requires WiredInv(w) && Stuck(w) && CanTake(w, step, farewell)
    requires After(w.b, step).fsm.Initializing? && Tail(After(w.b, step).pend) == None
    ensures farewell == []
    ensures var line := LineAfter(w, step, farewell);
      line.stage == w.line.stage && line.inbox == (if Reads(step) then w.line.inbox[1..] else w.line.inbox)
  {
    StuckFacts(w);
    MoveKeeps(w, Take(step, farewell));
    HeldWhileInitializing(AfterMove(w, Take(step, farewell)));
    ReadingIsCoherent(w.line);
    assert w.line.inbox + [] == w.line.inbox && (w.line.inbox != [] ==> w.line.inbox[1..] + [] == w.line.inbox[1..]);
    DeliverKeeps(Reacted(w.b, step), w.b.fsm, if step.HandleUpdate? then w.b.pend[1..] else []);
    assert step.HandleUpdate? ==> w.b.pend[0] in w.b.pend;
    assert !Starts(w.b, step);
    hide WiredInv, Reacted, Tail, Deliver;
  }

  lemma StuckTakes(w: Wired, step: Step, farewell: seq<WsUpdate>)
    requires WiredInv(w) && Stuck(w) && CanTake(w, step, farewell)
    ensures var t := AfterMove(w, Take(step, farewell));
      !t.b.fsm.Communicating? && (t.b.fsm.Initializing? ==> Stuck(t))
  {
    StuckGoesOn(w, step, farewell);
    if After(w.b, step).fsm.Initializing? {
      StuckLine(w, step, farewell);
      if Reads(step) {
        StuckReads(w, step.event.update, step.env);
      }
    }
    hide WiredInv, After, LineAfter, Tail, AwaitsVolume;
  }

  lemma HeldWhileInitializing(t: Wired)
    requires WiredInv(t) && t.b.fsm.Initializing? && Tail(t.b.pend) == None
    ensures t.b.m.ws.joinHandle.Some?
  {
  }

  lemma StuckStays(w: Wired, mv: Move)
    requires WiredInv(w) && Stuck(w) && CanMove(w, mv)
    ensures var t := AfterMove(w, mv); !t.b.fsm.Communicating? && (t.b.fsm.Initializing? ==> Stuck(t))
  {
    match mv
    case Speak(u) =>
      UpIsTalking(w);
      if !w.b.m.initialized {
        SayingKeepsStuck(w.line.inbox, w.line.stage, u);
      }
      hide WiredInv, Tail;
    case Return => hide WiredInv, Tail;
    case Take(step, farewell) =>
      hide Stuck;
      StuckTakes(w, step, farewell);
  }

  lemma {:induction false} StuckNeverCommunicates(w: Wired, mvs: seq<Move>)
    requires WiredInv(w) && Stuck(w)
    ensures !Communicates(w, mvs)
    decreases |mvs|
  {
    hide WiredInv, Stuck, CanMove, AfterMove;
    if mvs != [] && CanMove(w, mvs[0]) {
      StuckStays(w, mvs[0]);
      MoveKeeps(w, mvs[0]);
      if AfterMove(w, mvs[0]).b.fsm.Initializing? {
        StuckNeverCommunicates(AfterMove(w, mvs[0]), mvs[1..]);
      }
    }
  }

  // ------------------------------------------------------------------- when it can

  lemma CommunicatesLater(w: Wired, mv: Move)
    requires CanMove(w, mv) && AfterMove(w, mv).b.fsm.Initializing? && CanCommunicate(AfterMove(w, mv))
    ensures CanCommunicate(w)
  {
    hide CanMove, AfterMove;
    var rest :| Communicates(AfterMove(w, mv), rest);
    var mvs := [mv] + rest;
    assert mvs[1..] == rest;
    assert Communicates(w, mvs);
  }

  lemma CommunicatesNow(w: Wired, mv: Move)
    requires CanMove(w, mv) && AfterMove(w, mv).b.fsm.Communicating?
    ensures CanCommunicate(w)
  {
    hide CanMove, AfterMove;
    assert Communicates(w, [mv]);
  }

  predicate Hopeful(w: Wired) {
    && WiredInv(w) && w.b.pend == [] && w.b.fsm.Initializing? && !w.b.m.initialized
    && AwaitsVolume(w.line.inbox, w.line.stage)
  }

  lemma VolumeIsHeard(w: Wired)
    requires Hopeful(w) && w.line.inbox != [] && w.line.inbox[0] == WsPayload(Volume)
    ensures CanCommunicate(w)
  {
    var mv := Take(HandleExternal(FromWs(WsPayload(Volume)), FAR), []);
    HandlerHeard(w);
    ReadsOne(w, None);
    assert OnWs(w.b.m, WsPayload(Volume), FAR).outbox == [StartCommunication];
    assert Next(w.b.fsm, StartCommunication).Communicating?;
    hide WiredInv, CanMove, OnWs, Next, AfterMove;
    CommunicatesNow(w, mv);
  }

  /** Anything else that gives nothing up is read, and leaves the machine as it is. */
  lemma OtherIsHeard(w: Wired)
    requires Hopeful(w) && w.line.inbox != [] && w.line.inbox[0] != WsPayload(Volume)
    ensures var mv := Take(HandleExternal(FromWs(w.line.inbox[0]), FAR), []);
      && CanMove(w, mv)
      && var t := AfterMove(w, mv);
      && WiredInv(t) && t.b.fsm == w.b.fsm && !t.b.m.initialized
      && |t.b.pend| <= 1 && (t.b.pend != [] ==> !t.b.pend[0].Emitted?)
      && t.line == ReadOne(w.line)
  {
    var u := w.line.inbox[0];
    HandlerHeard(w);
    UpIsTalking(w);
    ReadingIsCoherent(w.line);
    assert !u.WsConnectError?;
    ReadsOne(w, None);
    ElseSends(w.b.m, u, FAR);
    ElseKeeps(w.b.m, u);
    var r := OnWs(w.b.m, u, FAR);
    assert r.outbox != [] ==> Emit(w.b.fsm, r.outbox[0]) == [TransitionError(r.outbox[0], w.b.fsm)];
    hide WiredInv, CanMove, OnWs, Emit, ReadOne;
  }

  lemma ElseKeeps(m: Manager, u: WsUpdate)
    requires m.link == Open && m.outbox == [] && !Troubles(u) && !u.WsConnectError? && u != WsPayload(Volume)
    ensures OnWs(m, u, FAR).initialized == m.initialized
    ensures StartCommunication !in OnWs(m, u, FAR).outbox
  {
  }

  lemma {:induction false} HopefulCommunicates(w: Wired)
    requires Hopeful(w)
    ensures CanCommunicate(w)
    decreases |w.line.inbox|
  {
    if w.line.inbox == [] {
      var u := WsPayload(Volume);
      assert w.line.stage.Talking?;
      MoveKeeps(w, Speak(u));
      assert [] + [u] == [u] && [u][0] == u;
      var t := AfterMove(w, Speak(u));
      hide WiredInv, CanCommunicate;
      VolumeIsHeard(t);
      CommunicatesLater(w, Speak(u));
    } else if w.line.inbox[0] == WsPayload(Volume) {
      VolumeIsHeard(w);
    } else {
      var mv := Take(HandleExternal(FromWs(w.line.inbox[0]), FAR), []);
      OtherIsHeard(w);
      var t := AfterMove(w, mv);
      assert AwaitsVolume(w.line.inbox[1..], w.line.stage);
      ReadingIsCoherent(w.line);
      hide WiredInv, CanCommunicate, CanMove, AwaitsVolume, ReadOne;
      if t.b.pend == [] {
        HopefulCommunicates(t);
      } else {
        SkipUpdate(t, None);
        HopefulCommunicates(AfterMove(t, Take(HandleUpdate(FAR), [])));
        CommunicatesLater(t, Take(HandleUpdate(FAR), []));
      }
      CommunicatesLater(w, mv);
    }
  }

  /** Main result: from a drained state in Initializing, some run comes to be
      Communicating with this connection if and only if no volume is taken as heard
      already, and one comes before anything that gives the connection up, or may still
      come. */
  lemma InitializingGoesOnExactly(w: Wired)
    requires DrainedWired(w) && w.b.fsm.Initializing?
    ensures CanCommunicate(w) <==> !w.b.m.initialized && AwaitsVolume(w.line.inbox, w.line.stage)
  {
    if !w.b.m.initialized && AwaitsVolume(w.line.inbox, w.line.stage) {
      HopefulCommunicates(w);
    } else {
      assert Tail([]) == None;
      hide WiredInv, Communicates, Tail, AwaitsVolume;
      forall mvs
        ensures !Communicates(w, mvs)
      {
        StuckNeverCommunicates(w, mvs);
      }
    }
  }
}
