/** The sessions the state machine goes through, from inputs to outputs. */
module StateMachineSessions {
  import opened Wrappers
  import opened StateMachine
  import opened StateMachineProperties

  predicate AllAccepted(s: State, ins: seq<Input>)
    decreases |ins|
  {
    ins == [] || (Accepts(s, ins[0]) && AllAccepted(Next(s, ins[0]), ins[1..]))
  }

  /** The inputs are all accepted, lead from one state to the other, and make the machine
      emit these outputs. */
  predicate Leads(s: State, ins: seq<Input>, t: State, outs: seq<Output>) {
    AllAccepted(s, ins) && RunState(s, ins) == t && Outputs(RunUpdates(s, ins)) == outs
  }

  lemma LeadsNowhere(s: State)
    ensures Leads(s, [], s, [])
  {
  }

  lemma {:induction false} LeadsOn(s: State, a: seq<Input>, t: State, outs: seq<Output>, b: seq<Input>, u: State, more: seq<Output>)
    requires Leads(s, a, t, outs) && Leads(t, b, u, more)
    ensures Leads(s, a + b, u, outs + more)
    decreases |a|
  {
    RunAppend(s, a, b);
    CollectAppend(OutputIn, RunUpdates(s, a), RunUpdates(t, b));
    AcceptedOn(s, a, b);
  }

  lemma {:induction false} AcceptedOn(s: State, a: seq<Input>, b: seq<Input>)
    requires AllAccepted(s, a) && AllAccepted(RunState(s, a), b)
    ensures AllAccepted(s, a + b)
    decreases |a|
  {
    if a == [] {
      assert a + b == b;
    } else {
      Front(a, b);
      AcceptedOn(Next(s, a[0]), a[1..], b);
    }
  }

  lemma LeadsByOne(s: State, i: Input, t: State, o: Option<Output>)
    requires Transition(s, i) == Some(t) && OutputOf(s, i) == o
    ensures Leads(s, [i], t, if o.Some? then [o.value] else [])
  {
    RunOne(s, i);
    OutputsOfEmit(s, i);
    assert [i][1..] == [];
  }

  // -------------------------------------------------------------- a whole session

  function Sending(commands: seq<TvCommand>): seq<Input> {
    if commands == [] then [] else [SendCommand(commands[0])] + Sending(commands[1..])
  }

  function Passing(commands: seq<TvCommand>): seq<Output> {
    if commands == [] then [] else [PassCommand(commands[0])] + Passing(commands[1..])
  }

  function OpeningInputs(url: Url, pairs: bool): seq<Input> {
    [Connect(url), AttemptRegister] + (if pairs then [Pair] else []) + [Initialize, StartCommunication]
  }

  function OpeningOutputs(url: Url, pairs: bool): seq<Output> {
    [ConnectToTv(url), SendRegisterPayload] + (if pairs then [PairWithTv] else []) + [InitializeConnection]
  }

  lemma {:induction false} CommandsLead(url: Url, commands: seq<TvCommand>)
    ensures Leads(Communicating(url), Sending(commands), Communicating(url), Passing(commands))
  {
    var s := Communicating(url);
    if commands == [] {
      LeadsNowhere(s);
    } else {
      CommandsLead(url, commands[1..]);
      LeadsByOne(s, SendCommand(commands[0]), s, Some(PassCommand(commands[0])));
      hide Leads;
      LeadsOn(s, [SendCommand(commands[0])], s, [PassCommand(commands[0])],
              Sending(commands[1..]), s, Passing(commands[1..]));
    }
  }

  lemma ConnectLeads(url: Url)
    ensures Leads(Disconnected, [Connect(url), AttemptRegister], Connected(url), [ConnectToTv(url), SendRegisterPayload])
  {
    LeadsByOne(Disconnected, Connect(url), Connecting(url), Some(ConnectToTv(url)));
    LeadsByOne(Connecting(url), AttemptRegister, Connected(url), Some(SendRegisterPayload));
    hide Leads;
    LeadsOn(Disconnected, [Connect(url)], Connecting(url), [ConnectToTv(url)],
            [AttemptRegister], Connected(url), [SendRegisterPayload]);
    assert [Connect(url)] + [AttemptRegister] == [Connect(url), AttemptRegister];
    assert [ConnectToTv(url)] + [SendRegisterPayload] == [ConnectToTv(url), SendRegisterPayload];
  }

  lemma PairingLeads(url: Url, pairs: bool)
    ensures Leads(Connected(url), if pairs then [Pair] else [], if pairs then Pairing(url) else Connected(url),
                  if pairs then [PairWithTv] else [])
  {
    if pairs {
      LeadsByOne(Connected(url), Pair, Pairing(url), Some(PairWithTv));
    } else {
      LeadsNowhere(Connected(url));
    }
  }

  lemma InitializingLeads(s: State, url: Url)
    requires s == Connected(url) || s == Pairing(url)
    ensures Leads(s, [Initialize, StartCommunication], Communicating(url), [InitializeConnection])
  {
    LeadsByOne(s, Initialize, Initializing(url), Some(InitializeConnection));
    LeadsByOne(Initializing(url), StartCommunication, Communicating(url), None);
    hide Leads;
    LeadsOn(s, [Initialize], Initializing(url), [InitializeConnection], [StartCommunication], Communicating(url), []);
    assert [Initialize] + [StartCommunication] == [Initialize, StartCommunication];
    assert [InitializeConnection] + [] == [InitializeConnection];
  }

  lemma OpeningLeads(url: Url, pairs: bool)
    ensures Leads(Disconnected, OpeningInputs(url, pairs), Communicating(url), OpeningOutputs(url, pairs))
  {
    var paired := if pairs then Pairing(url) else Connected(url);
    var prompt: seq<Input> := if pairs then [Pair] else [];
    var prompted: seq<Output> := if pairs then [PairWithTv] else [];
    ConnectLeads(url);
    PairingLeads(url, pairs);
    InitializingLeads(paired, url);
    hide Leads;
    LeadsOn(Disconnected, [Connect(url), AttemptRegister], Connected(url), [ConnectToTv(url), SendRegisterPayload],
            prompt, paired, prompted);
    LeadsOn(Disconnected, [Connect(url), AttemptRegister] + prompt, paired,
            [ConnectToTv(url), SendRegisterPayload] + prompted,
            [Initialize, StartCommunication], Communicating(url), [InitializeConnection]);
  }

  /** Main result: the converse of CommandsOnlyInOpenSessions. Whatever the URL and the
      commands, with a pairing or without, a session opened in order, used, and left by a
      disconnect is accepted input for input; it opens the connection in order, passes on
      each command in order, asks for the disconnect, and is over when that completes. */
  lemma SessionRuns(url: Url, pairs: bool, commands: seq<TvCommand>)
    ensures Leads(Disconnected, OpeningInputs(url, pairs) + Sending(commands) + [Disconnect], Disconnecting(url),
                  OpeningOutputs(url, pairs) + Passing(commands) + [DisconnectFromTv])
    ensures Leads(Disconnected, OpeningInputs(url, pairs) + Sending(commands) + [Disconnect] + [DisconnectionComplete],
                  Disconnected,
                  OpeningOutputs(url, pairs) + Passing(commands) + [DisconnectFromTv] + [HandleSuccessfulDisconnect])
  {
    var s := Communicating(url);
    OpeningLeads(url, pairs);
    CommandsLead(url, commands);
    LeadsByOne(s, Disconnect, Disconnecting(url), Some(DisconnectFromTv));
    LeadsByOne(Disconnecting(url), DisconnectionComplete, Disconnected, Some(HandleSuccessfulDisconnect));
    hide Leads, OpeningInputs, OpeningOutputs;
    LeadsOn(Disconnected, OpeningInputs(url, pairs), s, OpeningOutputs(url, pairs), Sending(commands), s, Passing(commands));
    LeadsOn(Disconnected, OpeningInputs(url, pairs) + Sending(commands), s,
            OpeningOutputs(url, pairs) + Passing(commands), [Disconnect], Disconnecting(url), [DisconnectFromTv]);
    LeadsOn(Disconnected, OpeningInputs(url, pairs) + Sending(commands) + [Disconnect], Disconnecting(url),
            OpeningOutputs(url, pairs) + Passing(commands) + [DisconnectFromTv],
            [DisconnectionComplete], Disconnected, [HandleSuccessfulDisconnect]);
  }

  /** How an error, or a reset, ends a session: while connecting at once; while the
      connection is up by a disconnect; and while that is under way at once. */
  lemma ErrorsLead(url: Url)
    ensures Leads(Connecting(url), [Error], Disconnected, [HandleConnectError])
    ensures forall s | s in [Connected(url), Pairing(url), Initializing(url), Communicating(url)] ::
      Leads(s, [Error], Disconnecting(url), [DisconnectFromTv])
    ensures Leads(Disconnecting(url), [Error], Disconnected, [HandleDisconnectError])
    ensures forall s | Real(s) :: Leads(s, [Reset], Disconnected, [])
  {
    LeadsByOne(Connecting(url), Error, Disconnected, Some(HandleConnectError));
    LeadsByOne(Disconnecting(url), Error, Disconnected, Some(HandleDisconnectError));
    forall s | s in [Connected(url), Pairing(url), Initializing(url), Communicating(url)]
      ensures Leads(s, [Error], Disconnecting(url), [DisconnectFromTv])
    {
      LeadsByOne(s, Error, Disconnecting(url), Some(DisconnectFromTv));
    }
    forall s | Real(s)
      ensures Leads(s, [Reset], Disconnected, [])
    {
      LeadsByOne(s, Reset, Disconnected, None);
    }
  }

  /** Where each input is accepted: nowhere else, so a session takes no other course. */
  lemma AcceptedExactly(s: State, i: Input)
    requires Real(s)
    ensures Accepts(s, i) <==>
      match i
      case Connect(_) => s == Disconnected
      case AttemptRegister => s.Connecting?
      case Pair => s.Connected?
      case Initialize => s.Connected? || s.Pairing?
      case StartCommunication => s.Initializing?
      case SendCommand(_) => s.Communicating?
      case Disconnect => s.Communicating?
      case DisconnectionComplete => s.Disconnecting?
      case Error => s != Disconnected
      case Reset => true
  {
  }
}
