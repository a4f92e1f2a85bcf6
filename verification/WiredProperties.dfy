/** Exactly when a cancel, a disconnect or a pairing given up is the end of it. */
module WiredProperties {
  import opened Wrappers
  import opened StateMachine
  import opened ManagerModel
  import opened Async
  import opened Drained
  import opened DrainedInvariant
  import opened DrainedFinality
  import opened DrainedSpent
  import opened HandlerLine
  import opened Wired
  import opened WiredSteps
  import opened WiredFinality
  import opened WiredDialling
  import DS = DrainedSchedule

  predicate DrainedWired(w: Wired) {
    WiredInv(w) && w.b.pend == []
  }

  /** Main result: from rest in Disconnected some run dials unasked if and only if the
      target reconnects by itself, pings are sent, and a URL is there or can still be
      read from disk by way of a failed connection test. */
  lemma DisconnectedDialsExactly(w: Wired, avoiding: Option<Output>)
    requires DrainedWired(w) && w.b.fsm == Disconnected
    ensures CanDial(w, avoiding) <==> ComesBack(w.b.m, w.line.inbox)
  {
    assert Tail([]) == None;
    hide WiredInv, CanDial;
    if ComesBack(w.b.m, w.line.inbox) {
      DownDials(w, avoiding);
    } else {
      FinalNeverDials(w, avoiding);
    }
  }

  // ---------------------------------------------------------------------- cancel

  function Asking(msg: ManagerMessage, env: Env): Step {
    HandleExternal(FromCaller(msg), env)
  }

  lemma CancelQuiets(b: Settled, env: Env)
    requires Inv(b) && CanStep(b, Asking(CancelReconnect, env)) && KeepsTarget(b.m.reconnect.flow)
    requires b.fsm != Disconnected || b.m.reconnect.flow != Active
    ensures Quiet(After(b, Asking(CancelReconnect, env)))
  {
    hide Quiet, Deliver, ForceReset;
    var m1 := SetFlow(b.m, Cancelled);
    if b.m.reconnect.flow == WaitingForTvOnNetwork {
      ResetQuiets(b.m, m1, env.answer.disk, b.fsm);
    } else {
      QuietAfterResets(m1, b.fsm);
    }
  }

  /** A cancel at rest only ends the flow. */
  lemma PlainCancel(w: Wired, env: Env, farewell: seq<WsUpdate>)
    requires DrainedWired(w) && CanTake(w, Asking(CancelReconnect, env), farewell)
    requires w.b.fsm == Disconnected && w.b.m.reconnect.flow == Active
    ensures var t := AfterMove(w, Take(Asking(CancelReconnect, env), farewell));
      DrainedWired(t) && t.b == Settled(SetFlow(w.b.m, Cancelled), Disconnected, []) && t.line == w.line
  {
    MoveKeeps(w, Take(Asking(CancelReconnect, env), farewell));
    NothingSent(SetFlow(w.b.m, Cancelled), w.b.fsm, []);
    assert w.line.inbox + [] == w.line.inbox;
  }

  /** Main result: a cancel handled in a drained state is final, for every later run
      without a new request or a registration, exactly unless it finds the machine
      Disconnected with an Active flow whose target can come back: one that
      auto-reconnects, is pinged, and has a URL or a way to one. */
  lemma CancelIsFinalExactly(w: Wired, env: Env, farewell: seq<WsUpdate>)
    requires DrainedWired(w) && CanTake(w, Asking(CancelReconnect, env), farewell) && KeepsTarget(w.b.m.reconnect.flow)
    ensures CanDial(AfterMove(w, Take(Asking(CancelReconnect, env), farewell)), Some(SendRegisterPayload)) <==>
      w.b.fsm == Disconnected && w.b.m.reconnect.flow == Active && ComesBack(w.b.m, w.line.inbox)
  {
    var mv := Take(Asking(CancelReconnect, env), farewell);
    var t := AfterMove(w, mv);
    if w.b.fsm == Disconnected && w.b.m.reconnect.flow == Active {
      PlainCancel(w, env, farewell);
      hide WiredInv, CanDial, CanMove, CanTake, AfterMove;
      DisconnectedDialsExactly(t, Some(SendRegisterPayload));
    } else {
      MoveKeeps(w, mv);
      CancelQuiets(w.b, env);
      hide WiredInv, CanDial, CanMove, CanTake, Quiet, After;
      FinalNeverDials(t, Some(SendRegisterPayload));
    }
  }

  // ------------------------------------------------------------------ disconnect

  /** The reconnect flow that a disconnect request does not end. */
  predicate GoesOn(m: Manager, fsm: State, line: Line) {
    match fsm
    case Disconnected => ComesBack(m, line.inbox)
    case Connecting(_) =>
      && m.reconnect.flow == Active && DS.RetryLeft(m)
      && (Pings(m) || (!m.checker.operational && WsConnected !in line.inbox))
    case Disconnecting(_) =>
      || (m.reconnect.flow == Active && !m.pairing && (Pings(m) || (!m.checker.operational && !line.heard.Ended?)))
      || (KeepsTarget(m.reconnect.flow) && AutoReconnect(m) && Pings(m))
    case _ => false
  }

  /** What the request leaves in a state whose machine refuses it. */
  lemma Refused(w: Wired, env: Env, farewell: seq<WsUpdate>)
    requires DrainedWired(w) && CanTake(w, Asking(CallerDisconnect, env), farewell)
    requires w.b.fsm == Disconnected || w.b.fsm.Connecting? || w.b.fsm.Disconnecting?
    ensures var t := AfterMove(w, Take(Asking(CallerDisconnect, env), farewell));
      && WiredInv(t) && t.line == w.line
      && t.b == Settled(w.b.m.(manualDisconnect := true), w.b.fsm, [TransitionError(StateMachine.Disconnect, w.b.fsm)])
  {
    var m1 := OnCaller(w.b.m, CallerDisconnect, env);
    assert m1 == w.b.m.(manualDisconnect := true, outbox := [StateMachine.Disconnect]);
    MoveKeeps(w, Take(Asking(CallerDisconnect, env), farewell));
    RunOne(w.b.fsm, StateMachine.Disconnect);
    assert [] + Emit(w.b.fsm, StateMachine.Disconnect) == [TransitionError(StateMachine.Disconnect, w.b.fsm)];
    assert w.line.inbox + [] == w.line.inbox;
  }

  lemma GoingOnDials(w: Wired, avoiding: Option<Output>)
    requires DrainedWired(w) && w.b.m.manualDisconnect && GoesOn(w.b.m, w.b.fsm, w.line) && Harmless(avoiding)
    ensures CanDial(w, avoiding)
  {
    hide CanDial, WiredInv;
    if w.b.fsm == Disconnected {
      DownDials(w, avoiding);
    } else if w.b.fsm.Connecting? {
      if Pings(w.b.m) {
        ConnectingBlinks(w, avoiding);
      } else {
        ConnectingFails(w, avoiding);
      }
    } else if Pings(w.b.m) {
      ClosingBlinks(w, avoiding);
    } else {
      ClosingDials(w, avoiding);
    }
  }

  lemma GoesOnAfterRefusal(w: Wired, env: Env, farewell: seq<WsUpdate>, avoiding: Option<Output>)
    requires DrainedWired(w) && CanTake(w, Asking(CallerDisconnect, env), farewell)
    requires GoesOn(w.b.m, w.b.fsm, w.line) && Harmless(avoiding)
    ensures CanDial(AfterMove(w, Take(Asking(CallerDisconnect, env), farewell)), avoiding)
  {
    Refused(w, env, farewell);
    var t := AfterMove(w, Take(Asking(CallerDisconnect, env), farewell));
    var skip := Take(HandleUpdate(FAR), []);
    hide CanDial, CanMove, CanTake, WiredInv;
    SkipUpdate(t, avoiding);
    GoingOnDials(AfterMove(t, skip), avoiding);
    DialsLater(t, skip, avoiding);
  }

  /** A connection under way whose flow does not go on. */
  lemma DownOrSpent(w: Wired)
    requires DrainedWired(w) && !GoesOn(w.b.m, w.b.fsm, w.line)
    requires w.b.fsm == Disconnected || w.b.fsm.Connecting? || w.b.fsm.Disconnecting?
    ensures var m := w.b.m.(manualDisconnect := true);
      || (w.b.fsm == Disconnected && !ComesBack(m, w.line.inbox))
      || QuietIn(m, w.b.fsm, None)
      || SpentIn(m, w.b.fsm, None)
      || (Decided(w.b.fsm, w.line) && m.reconnect.flow == Active && !m.checker.operational)
  {
  }

  lemma TailOfRefusal(i: Input, s: State)
    ensures Tail([TransitionError(i, s)]) == None
  {
  }

  lemma RefusedIsFinal(w: Wired, env: Env, farewell: seq<WsUpdate>)
    requires DrainedWired(w) && CanTake(w, Asking(CallerDisconnect, env), farewell)
    requires w.b.fsm == Disconnected || w.b.fsm.Connecting? || w.b.fsm.Disconnecting?
    requires !GoesOn(w.b.m, w.b.fsm, w.line)
    ensures Final(AfterMove(w, Take(Asking(CallerDisconnect, env), farewell)), None)
  {
    Refused(w, env, farewell);
    DownOrSpent(w);
    TailOfRefusal(StateMachine.Disconnect, w.b.fsm);
    hide WiredInv, CanTake, Tail, SpentIn, QuietIn, ComesBack, GoesOn;
  }

  lemma TakenIsFinal(w: Wired, env: Env, farewell: seq<WsUpdate>)
    requires DrainedWired(w) && CanTake(w, Asking(CallerDisconnect, env), farewell)
    requires !(w.b.fsm == Disconnected || w.b.fsm.Connecting? || w.b.fsm.Disconnecting?)
    ensures Final(AfterMove(w, Take(Asking(CallerDisconnect, env), farewell)), None)
  {
    var m1 := OnCaller(w.b.m, CallerDisconnect, env);
    assert m1 == w.b.m.(manualDisconnect := true, outbox := [StateMachine.Disconnect]);
    QuietAfterInput(m1, w.b.fsm, StateMachine.Disconnect);
    DeliverKeeps(m1, w.b.fsm, []);
    hide Quiet, Deliver, WiredInv;
  }

  /** Main result: a disconnect requested in a drained state is final, for every order
      of later events without a new request, exactly unless the flow goes on: at
      Disconnected, with a target that can come back; Connecting, with a retry left
      and a failure still possible; or Disconnecting, with a retry due that is not
      prevented and a completion still possible, or a target that auto-reconnects and is
      pinged. */
  lemma DisconnectIsFinalExactly(w: Wired, env: Env, farewell: seq<WsUpdate>)
    requires DrainedWired(w) && CanTake(w, Asking(CallerDisconnect, env), farewell)
    ensures CanDial(AfterMove(w, Take(Asking(CallerDisconnect, env), farewell)), None) <==>
      GoesOn(w.b.m, w.b.fsm, w.line)
  {
    var mv := Take(Asking(CallerDisconnect, env), farewell);
    if GoesOn(w.b.m, w.b.fsm, w.line) {
      hide CanDial, WiredInv, CanTake, AfterMove;
      GoesOnAfterRefusal(w, env, farewell, None);
    } else {
      MoveKeeps(w, mv);
      hide CanDial, WiredInv, CanTake, AfterMove, Final;
      if w.b.fsm == Disconnected || w.b.fsm.Connecting? || w.b.fsm.Disconnecting? {
        RefusedIsFinal(w, env, farewell);
      } else {
        TakenIsFinal(w, env, farewell);
      }
      FinalNeverDials(AfterMove(w, mv), None);
    }
  }

  // --------------------------------------------------------------------- pairing

  /** Main result: from a drained state in Pairing, some run in which the pairing does
      not succeed dials unasked if and only if no disconnect was asked for, the target
      auto-reconnects, and pings are sent. */
  lemma PairingDialsExactly(w: Wired)
    requires DrainedWired(w) && w.b.fsm.Pairing?
    ensures CanDial(w, Some(InitializeConnection)) <==>
      !w.b.m.manualDisconnect && AutoReconnect(w.b.m) && Pings(w.b.m)
  {
    if !w.b.m.manualDisconnect && AutoReconnect(w.b.m) && Pings(w.b.m) {
      hide CanDial, WiredInv;
      UpDials(w, Some(InitializeConnection));
    } else {
      assert Final(w, Some(InitializeConnection)) by {
        assert w.b.m.manualDisconnect ==> QuietIn(w.b.m, w.b.fsm, None);
        hide WiredInv;
      }
      hide CanDial, WiredInv, Final;
      FinalNeverDials(w, Some(InitializeConnection));
    }
  }
}
