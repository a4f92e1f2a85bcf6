/** The line from one WebSocket handler to the manager: what the handler has sent and
    the manager has not read, and how far each of them has got in the conversation. */
module HandlerLine {
  import opened Wrappers
  import opened ManagerModel
  import WS = WsHandlerModel

  datatype Stage = Starting | Dialling | Talking | Failing | Ended

  /** What a handler may say next, and where that takes it. */
  function Says(stage: Stage, u: WsUpdate): Option<Stage> {
    match (stage, u)
    case (Starting, WsIdle) => Some(Dialling)
    case (Dialling, WsConnectError) => Some(Ended)
    case (Dialling, WsConnected) => Some(Talking)
    case (Talking, WsPayload(_)) => Some(Talking)
    case (Talking, WsConnectionOk(_)) => Some(Talking)
    case (Talking, WsServerClosedConnection) => Some(Failing)
    case (Talking, WsMessageReadError) => Some(Failing)
    case (Talking, WsDisconnected) => Some(Ended)
    case (Failing, WsDisconnected) => Some(Ended)
    case _ => None
  }

  function SaysAll(stage: Stage, us: seq<WsUpdate>): Option<Stage>
    decreases |us|
  {
    if us == [] then Some(stage)
    else
      match Says(stage, us[0])
      case Some(next) => SaysAll(next, us[1..])
      case None => None
  }

  /** `heard` is how far the manager has read, `stage` how far the handler has sent.
      The line is `open` until the handler's task returns, and drops its own receiver. */
  datatype Line = Line(heard: Stage, inbox: seq<WsUpdate>, stage: Stage, open: bool)

  predicate Coherent(line: Line) {
    SaysAll(line.heard, line.inbox) == Some(line.stage) && (!line.open ==> line.stage.Ended?)
  }

  const NO_HANDLER: Line := Line(Ended, [], Ended, false)
  const NEW_HANDLER: Line := Line(Starting, [], Starting, true)

  lemma {:induction false} SaysMore(stage: Stage, us: seq<WsUpdate>, more: seq<WsUpdate>)
    requires SaysAll(stage, us).Some?
    ensures SaysAll(stage, us + more) == SaysAll(SaysAll(stage, us).value, more)
    decreases |us|
  {
    if us == [] {
      assert us + more == more;
    } else {
      Front(us, more);
      SaysMore(Says(stage, us[0]).value, us[1..], more);
    }
  }

  lemma EndedIsEmpty(line: Line)
    requires Coherent(line) && line.heard == Ended
    ensures line.inbox == [] && line.stage == Ended
  {
  }

  // ----------------------------------------- the line is the handler's protocol

  /** A message as the manager takes it, payload texts parsed. */
  function AsUpdate(parse: string -> TvResponse, m: WS.Message): WsUpdate {
    match m
    case Idle => WsIdle
    case Connected => WsConnected
    case ConnectError => WsConnectError
    case Payload(text) => WsPayload(parse(text))
    case IsConnectionOk(ok) => WsConnectionOk(ok)
    case ServerClosedConnection => WsServerClosedConnection
    case MessageReadError => WsMessageReadError
    case Disconnected => WsDisconnected
  }

  function AsUpdates(parse: string -> TvResponse, ms: seq<WS.Message>): seq<WsUpdate> {
    if ms == [] then [] else [AsUpdate(parse, ms[0])] + AsUpdates(parse, ms[1..])
  }

  /** The rest of a conversation once connected. */
  predicate Closing(ms: seq<WS.Message>) {
    && |ms| >= 1 && ms[|ms| - 1].Disconnected?
    && (forall k | 0 <= k < |ms| - 2 :: WS.IsBody(ms[k]))
    && (|ms| > 1 ==> WS.IsBody(ms[|ms| - 2]) || WS.IsFault(ms[|ms| - 2]))
  }

  lemma {:induction false} ClosingIsTalking(parse: string -> TvResponse, ms: seq<WS.Message>)
    ensures SaysAll(Talking, AsUpdates(parse, ms)) == Some(Ended) <==> Closing(ms)
    decreases |ms|
  {
    if ms != [] {
      var head, rest := ms[0], ms[1..];
      assert AsUpdates(parse, ms)[1..] == AsUpdates(parse, rest);
      assert forall k :: 0 <= k < |rest| ==> rest[k] == ms[k + 1];
      if WS.IsBody(head) {
        ClosingIsTalking(parse, rest);
        if Closing(rest) {
          assert Closing(ms);
        }
      } else if WS.IsFault(head) {
        FailingIsDisconnected(parse, rest);
        assert Closing(ms) ==> |ms| == 2;
      } else if head.Disconnected? {
        EndedIsSilent(parse, rest);
      }
    }
  }

  lemma FailingIsDisconnected(parse: string -> TvResponse, ms: seq<WS.Message>)
    ensures SaysAll(Failing, AsUpdates(parse, ms)) == Some(Ended) <==> ms == [WS.Disconnected]
  {
    if ms != [] {
      assert AsUpdates(parse, ms)[1..] == AsUpdates(parse, ms[1..]);
      EndedIsSilent(parse, ms[1..]);
      assert ms == [ms[0]] + ms[1..];
    }
  }

  lemma EndedIsSilent(parse: string -> TvResponse, ms: seq<WS.Message>)
    ensures SaysAll(Ended, AsUpdates(parse, ms)) == Some(Ended) <==> ms == []
  {
  }

  lemma GreetingIsSaid(parse: string -> TvResponse, ms: seq<WS.Message>)
    requires |ms| >= 2
    ensures SaysAll(Starting, AsUpdates(parse, ms)) ==
      if ms[0].Idle? && ms[1].Connected? then SaysAll(Talking, AsUpdates(parse, ms[2..]))
      else if ms[0].Idle? && ms[1].ConnectError? then SaysAll(Ended, AsUpdates(parse, ms[2..]))
      else None
  {
    var rest := ms[1..];
    assert rest[0] == ms[1] && rest[1..] == ms[2..];
    FirstWords(parse, ms[0]);
    FirstWords(parse, ms[1]);
    hide SaysAll, AsUpdates, Says, AsUpdate;
    SaysNext(parse, Starting, ms);
    SaysNext(parse, Dialling, rest);
  }

  lemma FirstWords(parse: string -> TvResponse, m: WS.Message)
    ensures Says(Starting, AsUpdate(parse, m)) == if m.Idle? then Some(Dialling) else None
    ensures Says(Dialling, AsUpdate(parse, m)) ==
      if m.Connected? then Some(Talking) else if m.ConnectError? then Some(Ended) else None
  {
  }

  lemma SaysNext(parse: string -> TvResponse, stage: Stage, ms: seq<WS.Message>)
    requires ms != []
    ensures SaysAll(stage, AsUpdates(parse, ms)) ==
      match Says(stage, AsUpdate(parse, ms[0]))
      case Some(next) => SaysAll(next, AsUpdates(parse, ms[1..]))
      case None => None
  {
    hide Says, AsUpdate;
    assert AsUpdates(parse, ms)[1..] == AsUpdates(parse, ms[1..]);
  }

  lemma CompleteIsGreetingAndClosing(ms: seq<WS.Message>)
    ensures WS.Complete(ms) <==>
      && |ms| >= 2 && ms[0].Idle?
      && ((ms[1].ConnectError? && ms[2..] == []) || (ms[1].Connected? && Closing(ms[2..])))
  {
    if |ms| >= 2 {
      var rest := ms[2..];
      assert ms == [ms[0], ms[1]] + rest;
      assert forall k :: 0 <= k < |rest| ==> rest[k] == ms[k + 2];
      assert forall k :: 2 <= k < |ms| ==> ms[k] == rest[k - 2];
    }
  }

  /** Main result: the whole conversations of a line are exactly those a handler is
      proved to deliver. */
  lemma LineFollowsHandler(parse: string -> TvResponse, ms: seq<WS.Message>)
    ensures SaysAll(Starting, AsUpdates(parse, ms)) == Some(Ended) <==> WS.Complete(ms)
  {
    CompleteIsGreetingAndClosing(ms);
    if |ms| >= 2 {
      GreetingIsSaid(parse, ms);
      ClosingIsTalking(parse, ms[2..]);
      EndedIsSilent(parse, ms[2..]);
      hide SaysAll, AsUpdates, WS.Complete, Closing;
    }
  }
}
