/** The connection state machine: its states, inputs and outputs, the two pure
    tables that define it, and the task that consumes inputs one at a time. */
module StateMachine {
  import opened Wrappers

  type Url = string

  /** A TV command, known here by its payload text. */
  type TvCommand = string

  datatype State =
    | Disconnected
    | Connecting(url: Url)
    | Connected(url: Url)
    | Pairing(url: Url)
    | Initializing(url: Url)
    | Communicating(url: Url)
    | Disconnecting(url: Url)
    | WaitingToReconnect(url: Url, attempts: nat, nextAttemptMs: nat)
    | Zombie

  datatype Input =
    | Connect(url: Url)
    | AttemptRegister
    | Pair
    | Initialize
    | StartCommunication
    | SendCommand(command: TvCommand)
    | Reset
    | Error
    | Disconnect
    | DisconnectionComplete

  datatype Output =
    | ConnectToTv(url: Url)
    | SendRegisterPayload
    | PairWithTv
    | InitializeConnection
    | PassCommand(command: TvCommand)
    | DisconnectFromTv
    | HandleConnectError
    | HandleDisconnectError
    | HandleSuccessfulDisconnect

  /** What the task sends back: a transition error keeps the rejected input and
      the state it was rejected in, the two values its message text names. */
  datatype Update =
    | NewState(state: State)
    | Emitted(output: Output)
    | TransitionError(input: Input, inState: State)

  function Transition(s: State, i: Input): Option<State> {
    match (s, i)
    case (Disconnected, Connect(url)) => Some(Connecting(url))
    case (Disconnected, Reset) => Some(Disconnected)

    case (Connecting(url), AttemptRegister) => Some(Connected(url))
    case (Connecting(_), Reset) => Some(Disconnected)
    case (Connecting(_), Error) => Some(Disconnected)

    case (Connected(url), Pair) => Some(Pairing(url))
    case (Connected(url), Initialize) => Some(Initializing(url))
    case (Connected(_), Reset) => Some(Disconnected)
    case (Connected(url), Error) => Some(Disconnecting(url))

    case (Pairing(url), Initialize) => Some(Initializing(url))
    case (Pairing(_), Reset) => Some(Disconnected)
    case (Pairing(url), Error) => Some(Disconnecting(url))

    case (Initializing(url), StartCommunication) => Some(Communicating(url))
    case (Initializing(_), Reset) => Some(Disconnected)
    case (Initializing(url), Error) => Some(Disconnecting(url))

    case (Communicating(url), SendCommand(_)) => Some(Communicating(url))
    case (Communicating(url), Disconnect) => Some(Disconnecting(url))
    case (Communicating(_), Reset) => Some(Disconnected)
    case (Communicating(url), Error) => Some(Disconnecting(url))

    case (Disconnecting(_), DisconnectionComplete) => Some(Disconnected)
    case (Disconnecting(_), Reset) => Some(Disconnected)
    case (Disconnecting(_), Error) => Some(Disconnected)

    case _ => None
  }

  function OutputOf(s: State, i: Input): Option<Output> {
    match (s, i)
    case (Disconnected, Connect(url)) => Some(ConnectToTv(url))

    case (Connecting(_), AttemptRegister) => Some(SendRegisterPayload)
    case (Connecting(_), Error) => Some(HandleConnectError)

    case (Connected(_), Pair) => Some(PairWithTv)
    case (Connected(_), Initialize) => Some(InitializeConnection)
    case (Connected(_), Error) => Some(DisconnectFromTv)

    case (Pairing(_), Initialize) => Some(InitializeConnection)
    case (Pairing(_), Error) => Some(DisconnectFromTv)

    case (Initializing(_), Error) => Some(DisconnectFromTv)

    case (Communicating(_), SendCommand(command)) => Some(PassCommand(command))
    case (Communicating(_), Disconnect) => Some(DisconnectFromTv)
    case (Communicating(_), Error) => Some(DisconnectFromTv)

    case (Disconnecting(_), DisconnectionComplete) => Some(HandleSuccessfulDisconnect)
    case (Disconnecting(_), Error) => Some(HandleDisconnectError)

    case _ => None
  }

  // ---------------------------------------------------------------- one input

  function Next(s: State, i: Input): State {
    match Transition(s, i)
    case Some(t) => t
    case None => s
  }

  /** The updates the task sends for one input. */
  function Emit(s: State, i: Input): seq<Update> {
    match Transition(s, i)
    case None => [TransitionError(i, s)]
    case Some(t) =>
      match OutputOf(s, i)
      case Some(o) => [NewState(t), Emitted(o)]
      case None => [NewState(t)]
  }

  // ------------------------------------------------------------- many inputs

  function RunState(s: State, ins: seq<Input>): State
    decreases |ins|
  {
    if ins == [] then s else RunState(Next(s, ins[0]), ins[1..])
  }

  function RunUpdates(s: State, ins: seq<Input>): seq<Update>
    decreases |ins|
  {
    if ins == [] then [] else Emit(s, ins[0]) + RunUpdates(Next(s, ins[0]), ins[1..])
  }

  lemma RunOne(s: State, i: Input)
    ensures RunState(s, [i]) == Next(s, i)
    ensures RunUpdates(s, [i]) == Emit(s, i)
  {
    assert RunState(Next(s, i), []) == Next(s, i);
    assert Emit(s, i) + [] == Emit(s, i);
  }

  lemma {:induction false} RunAppend(s: State, a: seq<Input>, b: seq<Input>)
    ensures RunState(s, a + b) == RunState(RunState(s, a), b)
    ensures RunUpdates(s, a + b) == RunUpdates(s, a) + RunUpdates(RunState(s, a), b)
    decreases |a|
  {
    if a == [] {
      assert a + b == b;
    } else {
      var t := Next(s, a[0]);
      RunAppend(t, a[1..], b);
      Front(a, b);
      Assoc(Emit(s, a[0]), RunUpdates(t, a[1..]), RunUpdates(RunState(t, a[1..]), b));
    }
  }

  lemma RunSnoc(s: State, ins: seq<Input>, i: Input)
    ensures RunState(s, ins + [i]) == Next(RunState(s, ins), i)
    ensures RunUpdates(s, ins + [i]) == RunUpdates(s, ins) + Emit(RunState(s, ins), i)
  {
    RunAppend(s, ins, [i]);
  }

  /** The task's loop over the inputs it receives before it is cancelled. */
  method RunTask(inputs: seq<Input>) returns (updates: seq<Update>, fsm: State)
    ensures updates == RunUpdates(Disconnected, inputs)
    ensures fsm == RunState(Disconnected, inputs)
  {
    fsm := Disconnected;
    updates := [];
    for n := 0 to |inputs|
      invariant updates == RunUpdates(Disconnected, inputs[..n])
      invariant fsm == RunState(Disconnected, inputs[..n])
    {
      RunSnoc(Disconnected, inputs[..n], inputs[n]);
      assert inputs[..n + 1] == inputs[..n] + [inputs[n]];
      match Transition(fsm, inputs[n]) {
        case Some(exitState) =>
          var output := OutputOf(fsm, inputs[n]);
          fsm := exitState;
          updates := updates + [NewState(fsm)];
          if output.Some? {
            updates := updates + [Emitted(output.value)];
          }
        case None =>
          updates := updates + [TransitionError(inputs[n], fsm)];
      }
    }
    assert inputs[..|inputs|] == inputs;
  }

  // ------------------------------------------------------------ reading updates

  /** The state a reader of the update stream believes the machine is in. */
  function Latest(s: State, ups: seq<Update>): State
    decreases |ups|
  {
    if ups == [] then s
    else Latest(if ups[0].NewState? then ups[0].state else s, ups[1..])
  }

  lemma {:induction false} LatestAppend(s: State, a: seq<Update>, b: seq<Update>)
    ensures Latest(s, a + b) == Latest(Latest(s, a), b)
    decreases |a|
  {
    if a == [] {
      assert a + b == b;
    } else {
      LatestAppend(if a[0].NewState? then a[0].state else s, a[1..], b);
      Front(a, b);
    }
  }

  lemma LatestOfEmit(s: State, i: Input)
    ensures Latest(s, Emit(s, i)) == Next(s, i)
  {
    var ups := Emit(s, i);
    if |ups| == 2 {
      assert ups[1..] == [ups[1]];
      assert Latest(ups[0].state, [ups[1]]) == Latest(ups[0].state, []);
    }
  }

  lemma {:induction false} MirrorsMachine(s: State, ins: seq<Input>)
    ensures Latest(s, RunUpdates(s, ins)) == RunState(s, ins)
    decreases |ins|
  {
    if ins != [] {
      LatestAppend(s, Emit(s, ins[0]), RunUpdates(Next(s, ins[0]), ins[1..]));
      LatestOfEmit(s, ins[0]);
      MirrorsMachine(Next(s, ins[0]), ins[1..]);
    }
  }

  /** The states the machine itself can be in: the other two are only ever
      announced by the manager. */
  predicate Real(s: State) {
    !s.WaitingToReconnect? && !s.Zombie?
  }

  lemma {:induction false} StaysReal(s: State, ins: seq<Input>)
    requires Real(s)
    ensures Real(RunState(s, ins))
    ensures forall u | u in RunUpdates(s, ins) && u.NewState? :: Real(u.state)
    decreases |ins|
  {
    if ins != [] {
      StaysReal(Next(s, ins[0]), ins[1..]);
    }
  }
}
