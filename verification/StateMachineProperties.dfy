/** What every run of the state machine obeys, for every sequence of inputs. */
module StateMachineProperties {
  import opened Wrappers
  import opened StateMachine

  function OutputIn(u: Update): Option<Output> {
    if u.Emitted? then Some(u.output) else None
  }

  function Outputs(ups: seq<Update>): seq<Output> {
    Collect(OutputIn, ups)
  }

  lemma OutputsOfEmit(s: State, i: Input)
    ensures Outputs(Emit(s, i)) ==
      if Transition(s, i).Some? && OutputOf(s, i).Some? then [OutputOf(s, i).value] else []
  {
    var ups := Emit(s, i);
    CollectOne(OutputIn, ups[0]);
    if |ups| == 2 {
      CollectSnoc(OutputIn, [ups[0]], ups[1]);
      assert ups == [ups[0]] + [ups[1]];
    } else {
      assert ups == [ups[0]];
    }
  }

  // ------------------------------------------------ the order within a session

  /** The outputs from the latest ConnectToTv on. */
  function Session(outs: seq<Output>): seq<Output> {
    if outs == [] then []
    else
      var last := outs[|outs| - 1];
      if last.ConnectToTv? then [last] else Session(outs[..|outs| - 1]) + [last]
  }

  lemma SessionSnoc(outs: seq<Output>, o: Output)
    ensures Session(outs + [o]) == if o.ConnectToTv? then [o] else Session(outs) + [o]
  {
    assert (outs + [o])[..|outs|] == outs;
  }

  /** One connect, one registration, at most one pairing, one initialization. */
  predicate Opening(sess: seq<Output>, url: Url) {
    || sess == [ConnectToTv(url), SendRegisterPayload, InitializeConnection]
    || sess == [ConnectToTv(url), SendRegisterPayload, PairWithTv, InitializeConnection]
  }

  /** An opening followed by nothing but commands. */
  predicate OpenSession(sess: seq<Output>, url: Url)
    decreases |sess|
  {
    || Opening(sess, url)
    || (sess != [] && sess[|sess| - 1].PassCommand? && OpenSession(sess[..|sess| - 1], url))
  }

  /** The latest session is as far as the state says. */
  predicate Fits(s: State, outs: seq<Output>) {
    SessionFits(s, Session(outs))
  }

  predicate SessionFits(s: State, sess: seq<Output>) {
    match s
    case Disconnected => true
    case Connecting(url) => sess == [ConnectToTv(url)]
    case Connected(url) => sess == [ConnectToTv(url), SendRegisterPayload]
    case Pairing(url) => sess == [ConnectToTv(url), SendRegisterPayload, PairWithTv]
    case Initializing(url) => Opening(sess, url)
    case Communicating(url) => OpenSession(sess, url)
    case Disconnecting(url) =>
      |sess| > 0 && sess[0] == ConnectToTv(url) && sess[|sess| - 1] == DisconnectFromTv
    case _ => false
  }

  lemma {:induction false} OpenStartsWithConnect(sess: seq<Output>, url: Url)
    requires OpenSession(sess, url)
    ensures |sess| > 0 && sess[0] == ConnectToTv(url)
    decreases |sess|
  {
    if !Opening(sess, url) {
      OpenStartsWithConnect(sess[..|sess| - 1], url);
    }
  }

  lemma SessionStep(s: State, sess: seq<Output>, i: Input)
    requires SessionFits(s, sess) && Transition(s, i).Some? && OutputOf(s, i).Some?
    ensures var o := OutputOf(s, i).value;
      SessionFits(Next(s, i), if o.ConnectToTv? then [o] else sess + [o])
  {
    var o := OutputOf(s, i).value;
    assert (sess + [o])[..|sess|] == sess;
    if s.Communicating? {
      OpenStartsWithConnect(sess, s.url);
    }
  }

  lemma FitsStep(s: State, outs: seq<Output>, i: Input)
    requires Fits(s, outs)
    ensures Fits(Next(s, i), outs + Outputs(Emit(s, i)))
  {
    OutputsOfEmit(s, i);
    hide Emit, Outputs, SessionFits, Session;
    if Transition(s, i).Some? && OutputOf(s, i).Some? {
      SessionSnoc(outs, OutputOf(s, i).value);
      SessionStep(s, Session(outs), i);
    } else {
      SessionSilent(s, Session(outs), i);
      assert outs + [] == outs;
    }
  }

  /** Without an output the session is as before, and still fits. */
  lemma SessionSilent(s: State, sess: seq<Output>, i: Input)
    requires SessionFits(s, sess) && (Transition(s, i).None? || OutputOf(s, i).None?)
    ensures SessionFits(Next(s, i), sess)
  {
  }

  lemma {:induction false} FitsRun(s: State, outs: seq<Output>, ins: seq<Input>)
    requires Fits(s, outs)
    ensures Fits(RunState(s, ins), outs + Outputs(RunUpdates(s, ins)))
    decreases |ins|
  {
    if ins == [] {
      assert outs + [] == outs;
    } else {
      var t, here := Next(s, ins[0]), Outputs(Emit(s, ins[0]));
      FitsStep(s, outs, ins[0]);
      FitsRun(t, outs + here, ins[1..]);
      CollectAppend(OutputIn, Emit(s, ins[0]), RunUpdates(t, ins[1..]));
      Assoc(outs, here, Outputs(RunUpdates(t, ins[1..])));
    }
  }

  ghost predicate CommandsAreInSession(outs: seq<Output>) {
    forall k | 0 <= k < |outs| && outs[k].PassCommand? ::
      exists url :: OpenSession(Session(outs[..k]), url)
  }

  lemma CommandsInSessionStep(s: State, outs: seq<Output>, i: Input)
    requires Fits(s, outs) && CommandsAreInSession(outs)
    ensures CommandsAreInSession(outs + Outputs(Emit(s, i)))
  {
    var here := Outputs(Emit(s, i));
    OutputsOfEmit(s, i);
    forall k | 0 <= k < |outs + here| && (outs + here)[k].PassCommand?
      ensures exists url :: OpenSession(Session((outs + here)[..k]), url)
    {
      if k < |outs| {
        assert (outs + here)[..k] == outs[..k];
      } else {
        assert (outs + here)[..k] == outs;
        assert OpenSession(Session(outs), s.url);
      }
    }
  }

  lemma {:induction false} CommandsInSessionRun(s: State, outs: seq<Output>, ins: seq<Input>)
    requires Fits(s, outs) && CommandsAreInSession(outs)
    ensures CommandsAreInSession(outs + Outputs(RunUpdates(s, ins)))
    decreases |ins|
  {
    if ins == [] {
      assert outs + [] == outs;
    } else {
      var t, here := Next(s, ins[0]), Outputs(Emit(s, ins[0]));
      FitsStep(s, outs, ins[0]);
      CommandsInSessionStep(s, outs, ins[0]);
      CommandsInSessionRun(t, outs + here, ins[1..]);
      CollectAppend(OutputIn, Emit(s, ins[0]), RunUpdates(t, ins[1..]));
      Assoc(outs, here, Outputs(RunUpdates(t, ins[1..])));
    }
  }

  /** Main result: whatever the inputs, a command is passed to the TV only inside
      a session that was opened in the full order, with no disconnect since. */
  lemma CommandsOnlyInOpenSessions(ins: seq<Input>)
    ensures CommandsAreInSession(Outputs(RunUpdates(Disconnected, ins)))
    ensures Fits(RunState(Disconnected, ins), Outputs(RunUpdates(Disconnected, ins)))
  {
    FitsRun(Disconnected, [], ins);
    CommandsInSessionRun(Disconnected, [], ins);
    assert [] + Outputs(RunUpdates(Disconnected, ins)) == Outputs(RunUpdates(Disconnected, ins));
  }

  // ------------------------------------------------------------------ progress

  function Rank(s: State): nat {
    match s
    case Connecting(_) => 6
    case Connected(_) => 5
    case Pairing(_) => 4
    case Initializing(_) => 3
    case Communicating(_) => 2
    case Disconnecting(_) => 1
    case _ => 0
  }

  predicate Accepts(s: State, i: Input) {
    Transition(s, i).Some?
  }

  /** Accepted inputs that leave the machine in another state. */
  function Changes(s: State, ins: seq<Input>): nat
    decreases |ins|
  {
    if ins == [] then 0
    else (if Next(s, ins[0]) != s then 1 else 0) + Changes(Next(s, ins[0]), ins[1..])
  }

  function AcceptedConnects(s: State, ins: seq<Input>): nat
    decreases |ins|
  {
    if ins == [] then 0
    else
      (if ins[0].Connect? && Accepts(s, ins[0]) then 1 else 0)
      + AcceptedConnects(Next(s, ins[0]), ins[1..])
  }

  lemma {:induction false} ChangesArePaidFor(s: State, ins: seq<Input>)
    requires Real(s)
    ensures Changes(s, ins) + Rank(RunState(s, ins)) <= Rank(s) + 7 * AcceptedConnects(s, ins)
    decreases |ins|
  {
    if ins != [] {
      ChangesArePaidFor(Next(s, ins[0]), ins[1..]);
    }
  }

  /** Main result: at most seven changes of state for each accepted Connect. */
  lemma ProgressBound(ins: seq<Input>)
    ensures Changes(Disconnected, ins) <= 7 * AcceptedConnects(Disconnected, ins)
  {
    ChangesArePaidFor(Disconnected, ins);
  }

  function Connects(outs: seq<Output>): nat {
    if outs == [] then 0
    else (if outs[0].ConnectToTv? then 1 else 0) + Connects(outs[1..])
  }

  /** Times the machine comes back to Disconnected from another state. */
  function Returns(s: State, ins: seq<Input>): nat
    decreases |ins|
  {
    if ins == [] then 0
    else
      (if s != Disconnected && Next(s, ins[0]) == Disconnected then 1 else 0)
      + Returns(Next(s, ins[0]), ins[1..])
  }

  lemma {:induction false} ConnectsAppend(a: seq<Output>, b: seq<Output>)
    ensures Connects(a + b) == Connects(a) + Connects(b)
  {
    if a == [] {
      assert a + b == b;
    } else {
      ConnectsAppend(a[1..], b);
      Front(a, b);
    }
  }

  lemma ConnectsOfEmit(s: State, i: Input)
    ensures Connects(Outputs(Emit(s, i))) == if s == Disconnected && Next(s, i) != Disconnected then 1 else 0
  {
    OutputsOfEmit(s, i);
  }

  lemma {:induction false} ConnectsMinusReturns(s: State, ins: seq<Input>)
    ensures Connects(Outputs(RunUpdates(s, ins))) + (if s != Disconnected then 1 else 0)
         == Returns(s, ins) + (if RunState(s, ins) != Disconnected then 1 else 0)
    decreases |ins|
  {
    if ins != [] {
      var t := Next(s, ins[0]);
      var later := RunUpdates(t, ins[1..]);
      ConnectsMinusReturns(t, ins[1..]);
      CollectAppend(OutputIn, Emit(s, ins[0]), later);
      ConnectsAppend(Outputs(Emit(s, ins[0])), Outputs(later));
      ConnectsOfEmit(s, ins[0]);
    }
  }

  /** Main result: handlers asked for and not yet given up number 0 or 1, and
      exactly 1 while the machine is away from Disconnected. */
  lemma OneConnectionAtATime(ins: seq<Input>)
    ensures Connects(Outputs(RunUpdates(Disconnected, ins))) - Returns(Disconnected, ins)
         == if RunState(Disconnected, ins) == Disconnected then 0 else 1
  {
    ConnectsMinusReturns(Disconnected, ins);
  }

  /** The machine is at Disconnected after some of the inputs, one at least. */
  ghost predicate PassesDisconnected(s: State, ins: seq<Input>) {
    exists n: nat | 0 < n <= |ins| :: RunState(s, ins[..n]) == Disconnected
  }

  lemma PassesLater(s: State, i: Input, ins: seq<Input>)
    requires PassesDisconnected(Next(s, i), ins)
    ensures PassesDisconnected(s, [i] + ins)
  {
    var n: nat :| 0 < n <= |ins| && RunState(Next(s, i), ins[..n]) == Disconnected;
    assert ([i] + ins)[..n + 1] == [i] + ins[..n];
    Front([i], ins[..n]);
    assert RunState(s, ([i] + ins)[..n + 1]) == Disconnected;
  }

  lemma PassesFirst(s: State, i: Input, ins: seq<Input>)
    requires Next(s, i) == Disconnected
    ensures PassesDisconnected(s, [i] + ins)
  {
    assert ([i] + ins)[..1] == [i];
    RunOne(s, i);
  }

  /** A disconnect under way is left for Disconnected, and nothing else. */
  lemma {:induction false} ClosingEndsDown(s: State, ins: seq<Input>)
    requires s.Disconnecting?
    ensures PassesDisconnected(s, ins + [Error])
    ensures (forall i | i in ins :: !i.Connect?) ==> RunState(s, ins + [Error]) == Disconnected
    decreases |ins|
  {
    hide PassesDisconnected;
    if ins == [] {
      assert ins + [Error] == [Error] + [];
      PassesFirst(s, Error, []);
      RunOne(s, Error);
    } else {
      var i, rest := ins[0], ins[1..];
      Front(ins, [Error]);
      assert ins + [Error] == [i] + (rest + [Error]);
      if Next(s, i) == s {
        ClosingEndsDown(s, rest);
        PassesLater(s, i, rest + [Error]);
      } else {
        PassesFirst(s, i, rest + [Error]);
        RunAppend(Disconnected, rest, [Error]);
        if forall j | j in ins :: !j.Connect? {
          RestStaysDown(rest);
          RunOne(Disconnected, Error);
        }
      }
    }
  }

  lemma {:induction false} RestStaysDown(ins: seq<Input>)
    requires forall i | i in ins :: !i.Connect?
    ensures RunState(Disconnected, ins) == Disconnected
    decreases |ins|
  {
    if ins != [] {
      assert ins[0] in ins;
      RestStaysDown(ins[1..]);
    }
  }

  lemma ErrorLeavesDown(s: State)
    requires Real(s)
    ensures Next(s, Error) == Disconnected || Next(s, Error).Disconnecting?
    ensures Next(s, Reset) == Disconnected
  {
  }

  /** From wherever the machine is, two errors take it through Disconnected, whatever
      comes between them, and leave it there unless a Connect does; and a reset takes
      it there at once. */
  lemma WaysBack(s: State, between: seq<Input>)
    requires Real(s)
    ensures PassesDisconnected(s, [Error] + (between + [Error]))
    ensures (forall i | i in between :: !i.Connect?) ==> RunState(s, [Error] + (between + [Error])) == Disconnected
    ensures Next(s, Reset) == Disconnected
  {
    ErrorLeavesDown(s);
    Front([Error], between + [Error]);
    assert RunState(s, [Error] + (between + [Error])) == RunState(Next(s, Error), between + [Error]);
    if Next(s, Error) == Disconnected {
      RunOne(Disconnected, Error);
      hide PassesDisconnected, Next, RunState, RunUpdates;
      PassesFirst(s, Error, between + [Error]);
      RunAppend(Disconnected, between, [Error]);
      if forall i | i in between :: !i.Connect? {
        RestStaysDown(between);
        ErrorLeavesDown(Disconnected);
      }
    } else {
      hide PassesDisconnected, Next, RunState;
      ClosingEndsDown(Next(s, Error), between);
      PassesLater(s, Error, between + [Error]);
    }
  }
}
