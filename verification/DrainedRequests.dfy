/** When a Connect can go out that no request asked for. */
module DrainedRequests {
  import opened Wrappers
  import opened ManagerModel
  import opened ManagerFacts
  import opened Async
  import opened Drained
  import A = AsyncProperties
  import C = CheckerProperties
  import P = PlainProperties

  // ----------------------------------------------------- the asynchronous system

  predicate Accepts(m: Manager, step: Step) {
    step.HandleExternal? && AcceptsRequest(m, step.event)
  }

  predicate Within(m: Manager, step: Step, offered: set<Connection>) {
    Accepts(m, step) ==> Requested(m, step.event).value in offered
  }

  /** Every request accepted is for a connection offered. */
  predicate AsksWithin(s: System, steps: seq<Step>, offered: set<Connection>)
    requires Possible(s, steps)
    decreases |steps|
  {
    steps == [] || (Within(s.m, steps[0], offered) && AsksWithin(Apply(s, steps[0]), steps[1..], offered))
  }

  predicate Offers(offered: set<Connection>, c: Connection) {
    c in offered && c.wsUrl.Some?
  }

  predicate OffersRetries(offered: set<Connection>) {
    exists c | c in offered ::
      Offers(offered, c) && P.Retries(c)
  }

  predicate OffersAddress(offered: set<Connection>) {
    exists c | c in offered ::
      Offers(offered, c) && c.hasAddress
  }

  lemma AcceptedIsOffered(s: System, step: Step, offered: set<Connection>)
    requires Accepts(s.m, step) && Within(s.m, step, offered)
    ensures Offers(offered, Requested(s.m, step.event).value)
  {
  }

  lemma {:induction false} WithoutAddress(s: System, steps: seq<Step>, offered: set<Connection>)
    requires Possible(s, steps) && AsksWithin(s, steps, offered) && !OffersAddress(offered)
    ensures C.AsksByName(s, steps)
    decreases |steps|
  {
    hide Apply, Enabled, AcceptsRequest, Offers;
    if steps != [] {
      if Accepts(s.m, steps[0]) {
        AcceptedIsOffered(s, steps[0], offered);
      }
      WithoutAddress(Apply(s, steps[0]), steps[1..], offered);
    }
  }

  lemma PlainStep(s: System, step: Step, offered: set<Connection>)
    requires Enabled(s, step) && P.PlainlySilent(s.m) && Within(s.m, step, offered) && !OffersRetries(offered)
    ensures P.Plain(Apply(s, step).m) && (!Accepts(s.m, step) ==> NoConnect(ManagerAfter(s, step).outbox))
  {
    assert Apply(s, step).m == ManagerAfter(s, step).(outbox := Apply(s, step).m.outbox);
    if Accepts(s.m, step) {
      AcceptedIsOffered(s, step, offered);
      P.RequestIsPlain(s.m, Requested(s.m, step.event).value);
      hide InitiateConnectToTv;
    } else {
      match step {
        case ConsumeInput =>
        case HandleUpdate(env) => P.UpdateStaysPlain(s.m, s.pending[0], env);
        case HandleExternal(ev, env) => P.ExternalStaysPlain(s.m, ev, env);
      }
      hide OnUpdate, OnExternal, AcceptsRequest;
    }
  }

  lemma {:induction false} PlainRun(s: System, steps: seq<Step>, offered: set<Connection>)
    requires Possible(s, steps) && A.Inv(s) && P.Plain(s.m) && AsksWithin(s, steps, offered) && !OffersRetries(offered)
    ensures C.DialsOnlyOnRequest(s, steps)
    decreases |steps|
  {
    if steps != [] {
      assert s.m.outbox == [];
      hide A.Inv, Apply, ManagerAfter, Enabled, P.Plain, OffersRetries, AcceptsRequest;
      PlainStep(s, steps[0], offered);
      A.StepHolds(s, steps[0]);
      PlainRun(Apply(s, steps[0]), steps[1..], offered);
    }
  }

  /** The connections that a program can be brought to dial unasked: one of them with a
      setting to retry, and if there is a checker, one with an address to ping. */
  predicate CanComeBack(offered: set<Connection>, operational: bool) {
    OffersRetries(offered) && (operational ==> OffersAddress(offered))
  }

  lemma OtherwiseOnlyOnRequest(created: Disk, started: Disk, operational: bool, steps: seq<Step>, offered: set<Connection>)
    requires Possible(Start(created, started, operational), steps)
    requires AsksWithin(Start(created, started, operational), steps, offered) && !CanComeBack(offered, operational)
    ensures C.DialsOnlyOnRequest(Start(created, started, operational), steps)
  {
    var s := Start(created, started, operational);
    if operational && !OffersAddress(offered) {
      WithoutAddress(s, steps, offered);
      C.HostNamesAreNeverRetried(created, started, steps);
    } else {
      A.StartHolds(created, started, operational);
      assert P.Plain(s.m);
      hide A.Inv, Start;
      PlainRun(s, steps, offered);
    }
  }

  // ------------------------------------------------------------ the settled system

  predicate SettledAsksWithin(b: Settled, steps: seq<Step>, offered: set<Connection>)
    requires CanRun(b, steps)
    decreases |steps|
  {
    steps == [] || (Within(b.m, steps[0], offered) && SettledAsksWithin(After(b, steps[0]), steps[1..], offered))
  }

  predicate SettledDialsOnlyOnRequest(b: Settled, steps: seq<Step>)
    requires CanRun(b, steps)
    decreases |steps|
  {
    steps == [] ||
    (&& (!Accepts(b.m, steps[0]) ==> NoConnect(Reacted(b, steps[0]).outbox))
     && SettledDialsOnlyOnRequest(After(b, steps[0]), steps[1..]))
  }

  lemma ConsumingSendsNothing(s: System, offered: set<Connection>)
    requires Enabled(s, ConsumeInput) && s.m.outbox == []
    ensures Within(s.m, ConsumeInput, offered) && NoConnect(ManagerAfter(s, ConsumeInput).outbox)
    ensures !Accepts(s.m, ConsumeInput)
  {
  }

  lemma RunningIsSettled(s: System)
    ensures Settle(s).m == s.m
  {
  }

  lemma EmptyAfter(s: System, step: Step)
    requires Enabled(s, step) && s.m.outbox == []
    ensures Apply(s, step).m.outbox == []
  {
  }

  lemma NotRunningStops(s: System, step: Step)
    requires Enabled(s, step) && !step.ConsumeInput?
    ensures s.m.running
  {
  }

  /** A run to completion asks, and dials, as the settled run it is. */
  lemma {:induction false} RequestsSettle(s: System, steps: seq<Step>, offered: set<Connection>)
    requires Possible(s, steps) && RunsToCompletion(s, steps) && s.m.outbox == []
    ensures CanRun(Settle(s), ManagerSteps(steps))
    ensures AsksWithin(s, steps, offered) <==> SettledAsksWithin(Settle(s), ManagerSteps(steps), offered)
    ensures C.DialsOnlyOnRequest(s, steps) <==> SettledDialsOnlyOnRequest(Settle(s), ManagerSteps(steps))
    decreases |steps|
  {
    if steps != [] {
      hide Settle, After, Apply, Enabled, CanStep, ManagerAfter, Reacted, AcceptsRequest, NoConnect;
      var t := Apply(s, steps[0]);
      EmptyAfter(s, steps[0]);
      RequestsSettle(t, steps[1..], offered);
      if steps[0].ConsumeInput? {
        ConsumingIsInvisible(s);
        ConsumingSendsNothing(s, offered);
      } else {
        NotRunningStops(s, steps[0]);
        ManagerStepMatches(s, steps[0]);
        RunningIsSettled(s);
        assert ManagerSteps(steps)[1..] == ManagerSteps(steps[1..]);
      }
    }
  }

  lemma {:induction false} SettledConcat(b: Settled, steps: seq<Step>, more: seq<Step>, offered: set<Connection>)
    requires CanRun(b, steps) && SettledAsksWithin(b, steps, offered)
    requires CanRun(RunFrom(b, steps), more) && SettledAsksWithin(RunFrom(b, steps), more, offered)
    ensures CanRun(b, steps + more) && SettledAsksWithin(b, steps + more, offered)
    ensures SettledDialsOnlyOnRequest(b, steps + more) ==> SettledDialsOnlyOnRequest(RunFrom(b, steps), more)
    decreases |steps|
  {
    hide CanStep, After, Reacted, Within, Accepts;
    if steps == [] {
      assert [] + more == more;
    } else {
      Front(steps, more);
      SettledConcat(After(b, steps[0]), steps[1..], more, offered);
    }
  }
}
