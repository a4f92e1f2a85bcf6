/** Exactly when a connection that is up is dialled again once it is lost. */
module WiredReconnect {
  import opened Wrappers
  import opened StateMachine
  import opened ManagerModel
  import opened Async
  import opened Drained
  import opened DrainedSteps
  import opened DrainedFinality
  import opened DrainedLoss
  import opened HandlerLine
  import opened Wired
  import opened WiredSteps
  import opened WiredFinality
  import opened WiredDialling
  import opened WiredLoss
  import opened WiredProperties

  // -------------------------------------------------------- the runs that recover

  /** A connection up that will be given up with a retry to follow. */
  predicate Losing(w: Wired) {
    && WiredInv(w) && Standing(w.b) && Lasts(w)
    && !w.b.m.manualDisconnect && AutoReconnect(w.b.m) && !w.b.m.checker.operational
  }

  /** The footing once everything sent has been heard. */
  function HearAll(f: Footing, inbox: seq<WsUpdate>): Footing
    decreases |inbox|
  {
    if inbox == [] then f else HearAll(Hearing(f, inbox[0]), inbox[1..])
  }

  function FinalFooting(w: Wired): Footing {
    HearAll(FootingOf(w.b.fsm, w.b.m.pairing), w.line.inbox)
  }

  lemma {:induction false} HearsLast(f: Footing, inbox: seq<WsUpdate>, u: WsUpdate)
    ensures HearAll(f, inbox + [u]) == Hearing(HearAll(f, inbox), u)
    decreases |inbox|
  {
    if inbox == [] {
      assert [] + [u] == [u] && [u][1..] == [];
      assert HearAll(Hearing(f, u), []) == Hearing(f, u);
    } else {
      Front(inbox, [u]);
      HearsLast(Hearing(f, inbox[0]), inbox[1..], u);
    }
  }

  lemma {:induction false} QueriesTaken(m: Manager, answers: seq<Answer>)
    requires forall a | a in answers :: a.sent
    ensures var r := SendQueries(m, answers); r == m.(ws := r.ws) && r.ws.joinHandle == m.ws.joinHandle
    decreases |answers|
  {
    hide ForceReset;
    if answers != [] {
      var n := |answers| - 1;
      assert answers[n] in answers && forall a | a in answers[..n] :: a in answers;
      QueriesTaken(m, answers[..n]);
    }
  }

  /** Handled with every send taken, an output leaves the connection up. */
  lemma OutputTaken(m: Manager, o: Output)
    requires o.PairWithTv? || o.InitializeConnection? || o.PassCommand?
    ensures var r := OnOutput(m, o, TAKEN);
      && r == m.(ws := r.ws, pairing := r.pairing, lastGood := r.lastGood) && r.ws.joinHandle == m.ws.joinHandle
      && (o.PassCommand? ==> r.pairing == m.pairing)
  {
    if o.InitializeConnection? {
      QueriesTaken(m.(pairing := false), TAKEN.queryAnswers);
    }
    hide SendQueries, ForceReset;
  }

  lemma ReadsUpdate(w: Wired)
    requires Losing(w) && w.b.pend != []
    ensures var mv := Take(HandleUpdate(TAKEN), []);
      && CanMove(w, mv) && Unasked(w, mv, None)
      && var t := AfterMove(w, mv);
      && Losing(t) && t.line == w.line && FinalFooting(t) == FinalFooting(w) && |t.b.pend| < |w.b.pend|
  {
    var mv := Take(HandleUpdate(TAKEN), []);
    var u := w.b.pend[0];
    if u.Emitted? {
      HandlingIsPlaced(w, u.output);
      OutputIsLast(w.b);
      OutputTaken(w.b.m, u.output);
    }
    var r := OnUpdate(w.b.m, u, TAKEN);
    hide OnOutput;
    assert r.outbox == [] && r.ws.joinHandle == w.b.m.ws.joinHandle;
    assert CanMove(w, mv);
    MoveKeeps(w, mv);
    NothingSent(r, w.b.fsm, w.b.pend[1..]);
    assert w.line.inbox + [] == w.line.inbox;
    if !u.Emitted? {
      SkippedUpdate(w.b.m.status, w.b.pend);
    }
    hide WiredInv, CanMove, Recovers, HearAll;
  }

  lemma HearsElse(w: Wired)
    requires Losing(w) && w.b.pend == [] && w.line.inbox != [] && !Troubles(w.line.inbox[0])
    ensures var mv := Take(HandleExternal(FromWs(w.line.inbox[0]), FAR), []);
      && CanMove(w, mv) && Unasked(w, mv, None)
      && var t := AfterMove(w, mv);
      && Losing(t) && FinalFooting(t) == FinalFooting(w) && |t.line.inbox| < |w.line.inbox|
  {
    var u := w.line.inbox[0];
    UpRests(w);
    UpIsTalking(w);
    ReadsOne(w, None);
    ReadingIsCoherent(w.line);
    assert !u.WsConnectError?;
    ElseIsHeard(w.b.m, u, FAR, w.b.fsm);
    DeliverKeeps(OnWs(w.b.m, u, FAR), w.b.fsm, []);
    var mv := Take(HandleExternal(FromWs(u), FAR), []);
    var t := AfterMove(w, mv);
    assert t.b == Deliver(OnWs(w.b.m, u, FAR), w.b.fsm, []);
    hide WiredInv, CanMove, OnWs, Deliver, Standing, FootingOf, Hearing, ReadOne;
  }

  lemma TroubleIsRead(w: Wired)
    requires Losing(w) && w.b.pend == [] && w.line.inbox != [] && Troubles(w.line.inbox[0])
    ensures var mv := Take(HandleExternal(FromWs(w.line.inbox[0]), FAR), []);
      && CanMove(w, mv) && Unasked(w, mv, None)
      && var t := AfterMove(w, mv);
      var fsm := Disconnecting(w.b.fsm.url);
      && WiredInv(t) && t.b.fsm == fsm && t.b.pend == [NewState(fsm), Emitted(DisconnectFromTv)]
      && t.b.m == w.b.m.(initialized := t.b.m.initialized, reconnect := t.b.m.reconnect)
      && t.b.m.reconnect.flow != Cancelled && t.line.open && !t.line.heard.Ended?
  {
    var u := w.line.inbox[0];
    UpRests(w);
    UpIsTalking(w);
    ReadsOne(w, None);
    ReadingIsCoherent(w.line);
    TroubleSends(w.b.m, u, FAR);
    NeverCancels(w.b.m, u, FAR);
    ErrorEmits(w.b.fsm);
    TroubleIsNotLast(w.line.heard, u);
    hide WiredInv, CanMove, OnWs, Unasked, ReadOne, Standing, Lasts, AfterMove, Next, Emit, Says, Troubles, Resting;
  }

  lemma TroubleIsNotLast(stage: Stage, u: WsUpdate)
    requires Troubles(u) && Says(stage, u).Some?
    ensures !Says(stage, u).value.Ended?
  {
  }

  lemma NeverCancels(m: Manager, u: WsUpdate, env: Env)
    requires m.link == Open && m.outbox == [] && m.reconnect.flow == Inactive
    ensures OnWs(m, u, env).reconnect.flow != Cancelled
  {
    if u.WsPayload? {
      ResponseSends(m, u.response);
    }
    hide OnResponse;
  }

  lemma GivesUp(w: Wired)
    requires Losing(w) && w.b.pend == [] && w.line.inbox != [] && Troubles(w.line.inbox[0])
    ensures CanDial(w, None)
  {
    var mv := Take(HandleExternal(FromWs(w.line.inbox[0]), FAR), []);
    var skip := Take(HandleUpdate(FAR), []);
    NotHeld(w);
    TroubleIsRead(w);
    var t := AfterMove(w, mv);
    hide WiredInv, CanMove, Unasked, CanDial, Standing, Lasts;
    ReadsState(t, t.b.fsm, DisconnectFromTv, None);
    ToldAndClosing(AfterMove(t, skip));
    DialsLater(t, skip, None);
    DialsLater(w, mv, None);
  }

  lemma NotHeld(w: Wired)
    requires Losing(w) && w.b.pend == [] && w.line.inbox != [] && Troubles(w.line.inbox[0])
    ensures !w.b.m.pairing
  {
  }

  /** The handler takes the shutdown, with no checker to say that the TV is gone. */
  lemma ToldAndClosing(w: Wired)
    requires WiredInv(w) && w.b.fsm.Disconnecting? && w.b.pend == [Emitted(DisconnectFromTv)]
    requires !w.b.m.manualDisconnect && AutoReconnect(w.b.m) && !w.b.m.checker.operational
    requires w.b.m.reconnect.flow != Cancelled && !w.b.m.pairing && w.line.open && !w.line.heard.Ended?
    ensures CanDial(w, None)
  {
    var mv := Take(HandleUpdate(TAKEN), []);
    HandlingIsPlaced(w, DisconnectFromTv);
    var r := OnOutput(w.b.m, DisconnectFromTv, TAKEN);
    assert r == w.b.m.(reconnect := r.reconnect, ws := r.ws) && r.reconnect.flow == Active;
    assert r.outbox == [] && r.ws.joinHandle == w.b.m.ws.joinHandle;
    hide OnOutput, Handling;
    assert CanMove(w, mv);
    MoveKeeps(w, mv);
    NothingSent(r, w.b.fsm, []);
    assert w.line.inbox + [] == w.line.inbox;
    hide WiredInv, CanDial, CanMove;
    ClosingDials(AfterMove(w, mv), None);
    DialsLater(w, mv, None);
  }

  /** The handler says a message that does not end the connection's recovery. */
  lemma SaysOn(w: Wired, u: WsUpdate)
    requires Losing(w) && w.line.inbox == [] && w.line.stage.Talking?
    requires Says(Talking, u).Some? && Recovers(FootingOf(w.b.fsm, w.b.m.pairing), [u], Says(Talking, u).value)
    ensures var t := AfterMove(w, Speak(u));
      CanMove(w, Speak(u)) && Losing(t) && t.line.inbox == [u] && t.b == w.b
  {
    MoveKeeps(w, Speak(u));
    assert [] + [u] == [u];
    hide WiredInv, Standing, Recovers;
  }

  lemma LosingDials(w: Wired)
    requires Losing(w)
    ensures CanDial(w, None)
    decreases if Held(FinalFooting(w)) then 1 else 0, |w.line.inbox|, |w.b.pend|, 1
  {
    var f := FootingOf(w.b.fsm, w.b.m.pairing);
    hide WiredInv, CanDial, CanMove, AfterMove, Unasked, Standing, FootingOf;
    if w.b.pend != [] {
      var mv := Take(HandleUpdate(TAKEN), []);
      ReadsUpdate(w);
      hide Losing;
      LosingDials(AfterMove(w, mv));
      DialsLater(w, mv, None);
    } else if w.line.inbox == [] {
      LosingSpeaks(w);
    } else if Troubles(w.line.inbox[0]) {
      GivesUp(w);
    } else {
      var mv := Take(HandleExternal(FromWs(w.line.inbox[0]), FAR), []);
      HearsElse(w);
      hide Losing;
      LosingDials(AfterMove(w, mv));
      DialsLater(w, mv, None);
    }
  }

  /** With nothing left to read, the handler says that the server closed the connection,
      and if that would be held by the pairing, that the pairing has succeeded first. */
  lemma LosingSpeaks(w: Wired)
    requires Losing(w) && w.b.pend == [] && w.line.inbox == []
    ensures CanDial(w, None)
    decreases if Held(FinalFooting(w)) then 1 else 0, 0, 0, 0
  {
    var f := FootingOf(w.b.fsm, w.b.m.pairing);
    assert FinalFooting(w) == f && w.line.stage.Talking?;
    if Held(f) {
      var u := WsPayload(Registered);
      assert [u][1..] == [] && Hearing(f, u) == Past;
      assert Recovers(Past, [], Talking) && HearAll(Past, []) == Past;
      SaysOn(w, u);
      var t := AfterMove(w, Speak(u));
      assert FinalFooting(t) == Past;
      hide Losing, CanDial, CanMove, FinalFooting;
      LosingDials(t);
      DialsLater(w, Speak(u), None);
    } else {
      SaysOn(w, WsServerClosedConnection);
      hide Losing, CanDial, CanMove;
      GivesUp(AfterMove(w, Speak(WsServerClosedConnection)));
      DialsLater(w, Speak(WsServerClosedConnection), None);
    }
  }

  // ---------------------------------------------------------------- the main result

  /** Main result: from a drained state with a connection up, some run dials unasked if
      and only if no disconnect was asked for, the target auto-reconnects, and it is
      pinged, or there is no checker and the connection lasts: its handler is still
      there to take the shutdown, and what it has said and can say leads to the
      connection being given up when no pairing holds it. */
  lemma LostConnectionDialsExactly(w: Wired)
    requires DrainedWired(w) && Up(w.b.fsm)
    ensures CanDial(w, None) <==>
      && !w.b.m.manualDisconnect && AutoReconnect(w.b.m)
      && (Pings(w.b.m) || (!w.b.m.checker.operational && Lasts(w)))
  {
    UpRests(w);
    assert Standing(w.b);
    var m := w.b.m;
    if !m.manualDisconnect && AutoReconnect(m) && Pings(m) {
      hide WiredInv, CanDial;
      UpDials(w, None);
    } else if !m.manualDisconnect && AutoReconnect(m) && !m.checker.operational && Lasts(w) {
      hide WiredInv, CanDial, Standing, Lasts;
      LosingDials(w);
    } else {
      assert Hopeless(w) by {
        if m.manualDisconnect {
          assert QuietIn(m, w.b.fsm, None);
          QuietIsFinal(w);
        }
        hide WiredInv, Final, Standing, Lasts;
      }
      hide WiredInv, CanDial, Hopeless, Standing, Lasts;
      HopelessNeverDials(w);
    }
  }
}
