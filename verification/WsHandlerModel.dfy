/** The WebSocket handler task as a value: what it writes to the socket and what it
    tells the manager, for every script of events. */
module WsHandlerModel {
  import opened Wrappers

  datatype Message =
    | Idle
    | Connected
    | ConnectError
    | Payload(text: string)
    | IsConnectionOk(ok: bool)
    | ServerClosedConnection
    | MessageReadError
    | Disconnected

  datatype Frame = TextFrame(text: string) | PingFrame | CloseFrame

  /** What one turn of the handler's loop may find. `written` says whether the write
      to the socket succeeds; times are in milliseconds. */
  datatype Event =
    | ShutDownRequested(written: bool)
    | PayloadRequested(text: string, written: bool)
    | TestRequested(now: int, written: bool)
    | ManagerGone(written: bool)
    | TextReceived(text: string)
    | PongReceived
    | CloseReceived
    | OtherReceived
    | ReadFailed
    | Tick(now: int)

  /** `accepts` is how many messages the manager's end takes before it is dropped. */
  datatype Handler = Handler(
    accepts: nat,
    sent: seq<Message>,      // every send attempted
    wire: seq<Frame>,        // every frame written
    testStart: Option<int>,
    looping: bool)

  const TEST_CONNECTION_DURATION: int := 1500

  /** What the manager's end of the channel has been given. */
  function Delivered(h: Handler): seq<Message> {
    if |h.sent| <= h.accepts then h.sent else h.sent[..h.accepts]
  }

  predicate Accepting(h: Handler) {
    |h.sent| < h.accepts
  }

  function Send(h: Handler, m: Message): Handler {
    h.(sent := h.sent + [m])
  }

  function Write(h: Handler, f: Frame, written: bool): Handler {
    if written then h.(wire := h.wire + [f]) else h
  }

  /** Out of the loop, by way of the last message. */
  function Leave(h: Handler): Handler {
    Send(h, Disconnected).(looping := false)
  }

  /** Whether a test begun at `start` has gone unanswered too long; a clock set
      back says nothing. */
  predicate Late(start: int, now: int) {
    start <= now && now - start > TEST_CONNECTION_DURATION
  }

  function Turn(h: Handler, e: Event): Handler {
    match e
    case ShutDownRequested(written) => Leave(Write(h, CloseFrame, written))
    case ManagerGone(written) => Leave(Write(h, CloseFrame, written))
    case PayloadRequested(text, written) =>
      if written then Write(h, TextFrame(text), true) else Leave(h)
    case TestRequested(now, written) =>
      if h.testStart.Some? then h
      else if written then Write(h, PingFrame, true).(testStart := Some(now))
      else Leave(h)
    case TextReceived(text) =>
      if Accepting(h) then Send(h, Payload(text)) else Leave(Send(h, Payload(text)))
    case PongReceived =>
      if h.testStart.Some? then Send(h.(testStart := None), IsConnectionOk(true)) else h
    case CloseReceived => Leave(Send(h, ServerClosedConnection))
    case OtherReceived => h
    case ReadFailed => Leave(Send(h, MessageReadError))
    case Tick(now) =>
      if h.testStart.Some? && Late(h.testStart.value, now) then Send(h, IsConnectionOk(false)) else h
  }

  /** Up to the loop: announce, connect, announce. */
  function Begin(accepts: nat, connects: bool): Handler {
    var h := Handler(accepts, [], [], None, false);
    var h1 := Send(h, Idle);
    if !Accepting(h) then h1
    else if !connects then Send(h1, ConnectError)
    else Send(h1, Connected).(looping := Accepting(h1))
  }

  function Turns(h: Handler, events: seq<Event>): Handler
    decreases |events|
  {
    if events == [] || !h.looping then h else Turns(Turn(h, events[0]), events[1..])
  }

  function RunHandler(accepts: nat, connects: bool, events: seq<Event>): Handler {
    Turns(Begin(accepts, connects), events)
  }

  lemma {:induction false} TurnsSnoc(h: Handler, events: seq<Event>, e: Event)
    ensures Turns(h, events + [e]) == (if Turns(h, events).looping then Turn(Turns(h, events), e) else Turns(h, events))
    decreases |events|
  {
    hide Turn;
    if events != [] && h.looping {
      Front(events, [e]);
      TurnsSnoc(Turn(h, events[0]), events[1..], e);
    } else if h.looping {
      assert events + [e] == [e];
      assert Turns(Turn(h, e), []) == Turn(h, e);
    }
  }

  // ---------------------------------------------------------------- the protocol

  predicate IsBody(m: Message) {
    m.Payload? || m.IsConnectionOk?
  }

  predicate IsFault(m: Message) {
    m.ServerClosedConnection? || m.MessageReadError?
  }

  /** A whole conversation: either the connect fails, or there is a body, possibly a
      fault, and the end. */
  predicate Complete(ms: seq<Message>) {
    || ms == [Idle, ConnectError]
    || (&& |ms| >= 3 && ms[0] == Idle && ms[1] == Connected && ms[|ms| - 1] == Disconnected
        && (forall k | 2 <= k < |ms| - 2 :: IsBody(ms[k]))
        && (|ms| > 3 ==> IsBody(ms[|ms| - 2]) || IsFault(ms[|ms| - 2])))
  }

  /** A conversation under way in the loop. */
  predicate Talking(ms: seq<Message>) {
    |ms| >= 2 && ms[0] == Idle && ms[1] == Connected && forall k | 2 <= k < |ms| :: IsBody(ms[k])
  }

  ghost predicate Begun(ms: seq<Message>) {
    exists rest :: Complete(ms + rest)
  }

  lemma TalkingIsBegun(ms: seq<Message>)
    requires Talking(ms)
    ensures Complete(ms + [Disconnected]) && Begun(ms)
  {
  }

  lemma PrefixIsBegun(ms: seq<Message>, n: nat)
    requires n <= |ms| && Begun(ms)
    ensures Begun(ms[..n])
  {
    var rest :| Complete(ms + rest);
    assert ms[..n] + (ms[n..] + rest) == ms + rest;
  }

  /** What is delivered is the beginning of a conversation, and a whole one when the
      task has ended with nothing refused. */
  ghost predicate DeliversConversation(h: Handler) {
    && (h.looping ==> Talking(h.sent))
    && Begun(Delivered(h))
    && (!h.looping && |h.sent| <= h.accepts ==> Complete(h.sent))
  }

  lemma LeaveDelivers(h: Handler)
    requires Talking(h.sent) || (h.sent != [] && IsFault(h.sent[|h.sent| - 1]) && Talking(h.sent[..|h.sent| - 1]))
    ensures DeliversConversation(Leave(h))
  {
    var all := Leave(h).sent;
    assert Complete(all);
    assert all + [] == all;
    PrefixIsBegun(all, |Delivered(Leave(h))|);
    assert Delivered(Leave(h)) == all[..|Delivered(Leave(h))|];
  }

  lemma StayDelivers(h: Handler)
    requires h.looping && Talking(h.sent)
    ensures DeliversConversation(h)
  {
    TalkingIsBegun(h.sent);
    PrefixIsBegun(h.sent, |Delivered(h)|);
    assert Delivered(h) == h.sent[..|Delivered(h)|];
  }

  /** A payload the manager's end refuses ends the loop, and leaves delivered what
      was. */
  lemma RefusedDelivers(h: Handler, m: Message)
    requires Talking(h.sent) && IsBody(m) && !Accepting(h)
    ensures DeliversConversation(Leave(Send(h, m)))
  {
    LeaveDelivers(Send(h, m));
  }

  lemma TurnDelivers(h: Handler, e: Event)
    requires h.looping && Talking(h.sent)
    ensures DeliversConversation(Turn(h, e))
  {
    hide Delivered, Talking, DeliversConversation;
    match e
    case ShutDownRequested(written) => LeaveDelivers(Write(h, CloseFrame, written));
    case ManagerGone(written) => LeaveDelivers(Write(h, CloseFrame, written));
    case PayloadRequested(_, written) => if written { StayDelivers(Turn(h, e)); } else { LeaveDelivers(h); }
    case TestRequested(_, written) =>
      if h.testStart.Some? || written { StayDelivers(Turn(h, e)); } else { LeaveDelivers(h); }
    case TextReceived(text) =>
      TalkingGrows(h, Payload(text));
      if Accepting(h) { StayDelivers(Turn(h, e)); } else { RefusedDelivers(h, Payload(text)); }
    case CloseReceived =>
      LeaveDelivers(Send(h, ServerClosedConnection));
    case ReadFailed =>
      LeaveDelivers(Send(h, MessageReadError));
    case PongReceived =>
      TalkingGrows(h, IsConnectionOk(true));
      StayDelivers(Turn(h, e));
    case OtherReceived => StayDelivers(Turn(h, e));
    case Tick(_) =>
      TalkingGrows(h, IsConnectionOk(false));
      StayDelivers(Turn(h, e));
  }

  lemma TalkingGrows(h: Handler, m: Message)
    requires Talking(h.sent) && IsBody(m)
    ensures Talking(h.sent + [m])
  {
  }

  lemma {:induction false} TurnsDeliver(h: Handler, events: seq<Event>)
    requires DeliversConversation(h)
    ensures DeliversConversation(Turns(h, events))
    decreases |events|
  {
    hide Turn;
    if events != [] && h.looping {
      TurnDelivers(h, events[0]);
      TurnsDeliver(Turn(h, events[0]), events[1..]);
    }
  }

  lemma BeginDelivers(accepts: nat, connects: bool)
    ensures DeliversConversation(Begin(accepts, connects))
  {
    var h := Begin(accepts, connects);
    if h.looping {
      StayDelivers(h);
    } else {
      var whole := if connects then [Idle, Connected, Disconnected] else [Idle, ConnectError];
      assert Complete(whole);
      assert whole + [] == whole;
      PrefixIsBegun(whole, |Delivered(h)|);
      assert Delivered(h) == whole[..|Delivered(h)|];
    }
  }

  /** Main result: whatever happens, and whenever the manager's end is dropped, what
      one handler delivers is the beginning of a conversation; and it is a whole one
      if the task has ended and nothing was refused. */
  lemma HandlerFollowsProtocol(accepts: nat, connects: bool, events: seq<Event>)
    ensures var h := RunHandler(accepts, connects, events);
      && Begun(Delivered(h))
      && (!h.looping && |h.sent| <= accepts ==> Complete(Delivered(h)))
  {
    BeginDelivers(accepts, connects);
    TurnsDeliver(Begin(accepts, connects), events);
    TurnsKeepAccepts(Begin(accepts, connects), events);
  }

  lemma {:induction false} TurnsKeepAccepts(h: Handler, events: seq<Event>)
    ensures Turns(h, events).accepts == h.accepts
    decreases |events|
  {
    if events != [] && h.looping {
      TurnsKeepAccepts(Turn(h, events[0]), events[1..]);
    }
  }

  // ---------------------------------------------------------- the connection test

  function PingIn(f: Frame): Option<Frame> {
    if f.PingFrame? then Some(f) else None
  }

  function PassIn(m: Message): Option<Message> {
    if m == IsConnectionOk(true) then Some(m) else None
  }

  function PingsSent(h: Handler): nat {
    |Collect(PingIn, h.wire)|
  }

  function PassesReported(h: Handler): nat {
    |Collect(PassIn, h.sent)|
  }

  /** Pings written, less passes reported, less the test pending. */
  function Balance(h: Handler): int {
    PingsSent(h) - PassesReported(h) - (if h.testStart.Some? then 1 else 0)
  }

  lemma SendBalance(h: Handler, m: Message)
    ensures Balance(Send(h, m)) == Balance(h) - (if m == IsConnectionOk(true) then 1 else 0)
  {
    CollectSnoc(PassIn, h.sent, m);
  }

  lemma LeaveBalance(h: Handler)
    ensures Balance(Leave(h)) == Balance(h)
  {
    CollectSnoc(PassIn, h.sent, Disconnected);
  }

  lemma WriteBalance(h: Handler, f: Frame, written: bool)
    ensures Balance(Write(h, f, written)) == Balance(h) + (if written && f.PingFrame? then 1 else 0)
  {
    CollectSnoc(PingIn, h.wire, f);
  }

  lemma PendingBalance(h: Handler, start: Option<int>)
    ensures Balance(h.(testStart := start)) ==
      Balance(h) + (if h.testStart.Some? then 1 else 0) - (if start.Some? then 1 else 0)
  {
  }

  lemma TurnBalances(h: Handler, e: Event)
    ensures Balance(Turn(h, e)) == Balance(h)
  {
    hide Balance, Send, Leave, Write;
    match e
    case ShutDownRequested(written) =>
      WriteBalance(h, CloseFrame, written);
      LeaveBalance(Write(h, CloseFrame, written));
    case ManagerGone(written) =>
      WriteBalance(h, CloseFrame, written);
      LeaveBalance(Write(h, CloseFrame, written));
    case PayloadRequested(text, _) =>
      WriteBalance(h, TextFrame(text), true);
      LeaveBalance(h);
    case TestRequested(now, _) =>
      WriteBalance(h, PingFrame, true);
      assert Write(h, PingFrame, true).testStart == h.testStart by {
        WriteKeepsTest(h, PingFrame);
      }
      PendingBalance(Write(h, PingFrame, true), Some(now));
      LeaveBalance(h);
    case TextReceived(text) =>
      SendBalance(h, Payload(text));
      LeaveBalance(Send(h, Payload(text)));
    case PongReceived =>
      PendingBalance(h, None);
      SendBalance(h.(testStart := None), IsConnectionOk(true));
    case CloseReceived =>
      SendBalance(h, ServerClosedConnection);
      LeaveBalance(Send(h, ServerClosedConnection));
    case ReadFailed =>
      SendBalance(h, MessageReadError);
      LeaveBalance(Send(h, MessageReadError));
    case OtherReceived =>
    case Tick(_) => SendBalance(h, IsConnectionOk(false));
  }

  lemma WriteKeepsTest(h: Handler, f: Frame)
    ensures Write(h, f, true).testStart == h.testStart
  {
  }

  lemma {:induction false} TurnsBalance(h: Handler, events: seq<Event>)
    ensures Balance(Turns(h, events)) == Balance(h)
    decreases |events|
  {
    hide Turn, Balance;
    if events != [] && h.looping {
      TurnBalances(h, events[0]);
      TurnsBalance(Turn(h, events[0]), events[1..]);
    }
  }

  /** Main result: pings written exceed passes reported by one exactly while a test
      is pending, and never otherwise. */
  lemma PingsMatchPasses(accepts: nat, connects: bool, events: seq<Event>)
    ensures var h := RunHandler(accepts, connects, events);
      PingsSent(h) == PassesReported(h) + (if h.testStart.Some? then 1 else 0)
  {
    var h := Begin(accepts, connects);
    CollectOne(PassIn, Idle);
    CollectSnoc(PassIn, [Idle], ConnectError);
    CollectSnoc(PassIn, [Idle], Connected);
    assert h.sent == [Idle] || h.sent == [Idle] + [ConnectError] || h.sent == [Idle] + [Connected];
    TurnsBalance(h, events);
  }
}
