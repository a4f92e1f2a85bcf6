/** Exactly which connections can be dialled without a request. */
module WiredRequests {
  import opened Wrappers
  import opened StateMachine
  import opened ManagerModel
  import opened ManagerFacts
  import opened Async
  import opened Drained
  import opened DrainedInvariant
  import opened DrainedLoss
  import opened DrainedRequests
  import opened HandlerLine
  import opened Wired
  import opened WiredFinality
  import opened WiredDialling
  import opened WiredLoss
  import opened WiredProperties
  import opened WiredReconnect
  import opened WiredReachability
  import C = CheckerProperties
  import P = PlainProperties
  import DP = DrainedProperties
  import DR = DrainedReachability

  // ------------------------------------------------- down to the asynchronous system

  lemma {:induction false} MovesAskWithin(w: Wired, mvs: seq<Move>, offered: set<Connection>)
    requires CanMoves(w, mvs) && MovesWithin(w, mvs, offered)
    ensures CanRun(w.b, StepsOf(mvs)) && RunFrom(w.b, StepsOf(mvs)) == MovesFrom(w, mvs).b
    ensures SettledAsksWithin(w.b, StepsOf(mvs), offered)
    decreases |mvs|
  {
    hide After, CanStep, LineAfter, CanTake, Within;
    if mvs != [] {
      MoveIsStep(w, mvs[0]);
      MovesAskWithin(AfterMove(w, mvs[0]), mvs[1..], offered);
      if mvs[0].Take? {
        assert StepsOf(mvs)[1..] == StepsOf(mvs[1..]);
      }
    }
  }

  lemma DialIsUnasked(w: Wired, mv: Move, offered: set<Connection>)
    requires CanMove(w, mv) && mv.Take? && Unasked(w, mv, None)
    ensures CanStep(w.b, mv.step) && Within(w.b.m, mv.step, offered) && !Accepts(w.b.m, mv.step)
    ensures DialsBy(w, mv) ==> !NoConnect(Reacted(w.b, mv.step).outbox)
  {
  }

  lemma {:induction false} UnaskedSteps(w: Wired, mvs: seq<Move>, offered: set<Connection>) returns (steps: seq<Step>)
    requires DialsUnasked(w, mvs, None)
    ensures CanRun(w.b, steps) && SettledAsksWithin(w.b, steps, offered) && !SettledDialsOnlyOnRequest(w.b, steps)
    decreases |mvs|
  {
    var mv := mvs[0];
    MoveIsStep(w, mv);
    if mv.Take? {
      DialIsUnasked(w, mv, offered);
    }
    hide CanMove, AfterMove, Unasked, After, CanStep, Reacted, Within, Accepts, NoConnect;
    if DialsBy(w, mv) {
      steps := [mv.step];
      assert steps[1..] == [];
      assert CanRun(After(w.b, mv.step), []) && SettledAsksWithin(After(w.b, mv.step), [], offered);
    } else {
      var rest := UnaskedSteps(AfterMove(w, mv), mvs[1..], offered);
      if mv.Take? {
        steps := [mv.step] + rest;
        assert steps[1..] == rest;
      } else {
        steps := rest;
      }
    }
  }

  /** A program that is only ever asked for these connections, and dials unasked. */
  ghost predicate DialsUnaskedFrom(operational: bool, offered: set<Connection>) {
    exists created, started, steps ::
      && Possible(Start(created, started, operational), steps)
      && AsksWithin(Start(created, started, operational), steps, offered)
      && !C.DialsOnlyOnRequest(Start(created, started, operational), steps)
  }

  /** What can be dialled with the handlers can be dialled by the program. */
  lemma DialledByProgram(w: Wired, operational: bool, offered: set<Connection>)
    requires Reached(w, operational, offered) && CanDial(w, None)
    ensures DialsUnaskedFrom(operational, offered)
  {
    var created, started, mvs :|
      && CanMoves(StartWired(created, started, operational), mvs)
      && w == MovesFrom(StartWired(created, started, operational), mvs)
      && MovesWithin(StartWired(created, started, operational), mvs, offered);
    var more :| DialsUnasked(w, more, None);
    var start := Start(created, started, operational);
    assert start.queue == [] && start.m.outbox == [];
    DP.StartSettles(created, started, operational);
    hide Start, Settle, Inv, CanMoves, MovesFrom, MovesWithin, DialsUnasked, CanRun, RunFrom;
    hide SettledAsksWithin, SettledDialsOnlyOnRequest;
    MovesAskWithin(StartWired(created, started, operational), mvs, offered);
    var rest := UnaskedSteps(w, more, offered);
    var first := StepsOf(mvs);
    SettledConcat(Settle(start), first, rest, offered);
    var taken := DR.Taking(start, first + rest);
    RequestsSettle(start, taken, offered);
  }

  // -------------------------------------------------------------- the runs that dial

  lemma UpComesBack(w: Wired, sc: Scene)
    requires At(w, sc, Talking) && w.b.fsm.Connected? && !w.b.m.pairing && sc.target.settings.autoReconnect && !sc.manual
    requires sc.operational ==> sc.pinged
    ensures CanDial(w, None)
  {
    assert FootingOf(w.b.fsm, w.b.m.pairing) == Fresh(false);
    assert Recovers(Fresh(false), [], Talking) && !Held(Fresh(false));
    hide Reached, WiredInv, CanDial, Recovers;
    LostConnectionDialsExactly(w);
  }

  lemma ConnectingComesBack(w: Wired, sc: Scene)
    requires At(w, sc, Starting) && w.b.fsm.Connecting? && w.b.m.reconnect.flow == Active && w.b.m.sessions == 0
    requires sc.target.settings.initialConnectRetries && (sc.operational ==> sc.pinged)
    ensures CanDial(w, None)
  {
    if sc.operational {
      hide Reached, WiredInv, CanDial;
      ConnectingBlinks(w, None);
    } else {
      EnvsArePlausible(w.b.m);
      var mv := Take(Asking(CallerDisconnect, FAR), []);
      assert CanTake(w, Asking(CallerDisconnect, FAR), []);
      assert Unasked(w, mv, None);
      assert GoesOn(w.b.m, w.b.fsm, w.line);
      hide Reached, WiredInv, CanDial, CanTake, AfterMove, Unasked, GoesOn;
      DisconnectIsFinalExactly(w, FAR, []);
      DialsLater(w, mv, None);
    }
  }

  /** Asked for at rest, a connection with a setting to retry can be dialled again. */
  lemma ComesBackFrom(rest: Wired, sc: Scene)
    requires Askable(rest, sc) && rest.b.m.sessions == 0 && P.Retries(sc.target) && (sc.operational ==> sc.pinged)
    requires !sc.manual
    ensures DialsUnaskedFrom(sc.operational, sc.offered)
  {
    hide Askable, WiredInv, CanDial, Reached, DialsUnaskedFrom, Aimed;
    var start := ReachConnectingFrom(rest, sc);
    if sc.target.settings.initialConnectRetries {
      ConnectingComesBack(start, sc);
      DialledByProgram(start, sc.operational, sc.offered);
    } else {
      var up := ReachRegistering(start, sc);
      UpComesBack(up, sc);
      DialledByProgram(up, sc.operational, sc.offered);
    }
  }

  /** A TV without any setting is asked for, and cannot be reached: at rest again, its
      address is still pinged. */
  lemma PingedBefore(operational: bool, offered: set<Connection>, d: Connection) returns (rest: Wired)
    requires Offers(offered, d) && d.hasAddress && !P.Retries(d)
    ensures Reached(rest, operational, offered) && DrainedWired(rest) && rest.b.fsm == Disconnected
    ensures rest.b.m.checker.operational == operational && rest.b.m.checker.pingTarget
    ensures !rest.b.m.manualDisconnect && !rest.b.m.initialized && !rest.b.m.pairing && rest.b.m.sessions == 0
  {
    var sc := Scene(operational, offered, d, true, false, false);
    var start := ReachConnecting(sc);
    EnvsArePlausible(start.b.m);
    assert Preparing(start.b.m, FAR) == start.b.m.(reconnect := Preparing(start.b.m, FAR).reconnect);
    assert Preparing(start.b.m, FAR).reconnect.flow == Inactive;
    hide Reached, WiredInv, Preparing;
    var failed := ReachFailed(start, sc, FAR);
    rest := ReachAbandoned(failed, sc);
  }

  lemma OfferedComesBack(operational: bool, offered: set<Connection>)
    requires CanComeBack(offered, operational)
    ensures DialsUnaskedFrom(operational, offered)
  {
    var c :| c in offered && Offers(offered, c) && P.Retries(c);
    if !operational || c.hasAddress {
      var sc := Scene(operational, offered, c, operational, false, false);
      StartRests(sc);
      hide Askable, DialsUnaskedFrom, StartWired;
      ComesBackFrom(StartWired(Unreadable, Unreadable, operational), sc);
    } else {
      var d :| d in offered && Offers(offered, d) && d.hasAddress;
      var sc := Scene(operational, offered, if P.Retries(d) then d else c, true, false, false);
      if P.Retries(d) {
        StartRests(sc);
        hide Askable, DialsUnaskedFrom, StartWired;
        ComesBackFrom(StartWired(Unreadable, Unreadable, operational), sc);
      } else {
        hide WiredInv, Reached, DialsUnaskedFrom;
        var rest := PingedBefore(operational, offered, d);
        ComesBackFrom(rest, sc);
      }
    }
  }

  /** Main result: of the programs that are only ever asked for the connections offered,
      some sends a Connect that no request asked for if and only if one of these has a
      setting to retry and, with the checker started, one has an address to ping. */
  lemma UnaskedConnectsExactly(operational: bool, offered: set<Connection>)
    ensures DialsUnaskedFrom(operational, offered) <==> CanComeBack(offered, operational)
  {
    if CanComeBack(offered, operational) {
      OfferedComesBack(operational, offered);
    } else {
      hide Start;
      forall created, started, steps |
        && Possible(Start(created, started, operational), steps)
        && AsksWithin(Start(created, started, operational), steps, offered)
        ensures C.DialsOnlyOnRequest(Start(created, started, operational), steps)
      {
        OtherwiseOnlyOnRequest(created, started, operational, steps, offered);
      }
    }
  }
}
