/** The WebSocket handler task as the loop it is. */
module WebSocketClient {
  import opened Wrappers
  import opened WsHandlerModel

  class LgTvWebSocket {
    const accepts: nat
    var sent: seq<Message>
    var wire: seq<Frame>
    var connectionTestStart: Option<int>
    var looping: bool

    ghost function View(): Handler
      reads this
    {
      Handler(accepts, sent, wire, connectionTestStart, looping)
    }

    constructor (accepts: nat)
      ensures View() == Handler(accepts, [], [], None, false)
    {
      this.accepts := accepts;
      sent, wire, connectionTestStart, looping := [], [], None, false;
    }

    method SendUpdate(message: Message) returns (taken: bool)
      modifies this`sent
      ensures View() == Send(old(View()), message)
      ensures taken <==> Accepting(old(View()))
    {
      taken := |sent| < accepts;
      sent := sent + [message];
    }

    method WriteFrame(frame: Frame, written: bool)
      modifies this`wire
      ensures View() == Write(old(View()), frame, written)
    {
      if written {
        wire := wire + [frame];
      }
    }

    /** One branch of the loop; leaving it sends the last message. */
    method Handle(event: Event)
      modifies this
      ensures View() == Turn(old(View()), event)
    {
      var leaving := false;
      match event {
        case ShutDownRequested(written) =>
          WriteFrame(CloseFrame, written);
          leaving := true;
        case ManagerGone(written) =>
          WriteFrame(CloseFrame, written);
          leaving := true;
        case PayloadRequested(text, written) =>
          WriteFrame(TextFrame(text), written);
          leaving := !written;
        case TestRequested(now, written) =>
          if connectionTestStart.None? {
            WriteFrame(PingFrame, written);
            if written {
              connectionTestStart := Some(now);
            } else {
              leaving := true;
            }
          }
        case TextReceived(text) =>
          var taken := SendUpdate(Payload(text));
          leaving := !taken;
        case PongReceived =>
          if connectionTestStart.Some? {
            connectionTestStart := None;
            var _ := SendUpdate(IsConnectionOk(true));
          }
        case CloseReceived =>
          var _ := SendUpdate(ServerClosedConnection);
          leaving := true;
        case OtherReceived =>
        case ReadFailed =>
          var _ := SendUpdate(MessageReadError);
          leaving := true;
        case Tick(now) =>
          match connectionTestStart {
            case Some(start) =>
              if start <= now && now - start > TEST_CONNECTION_DURATION {
                var _ := SendUpdate(IsConnectionOk(false));
              }
            case None =>
          }
      }
      if leaving {
        var _ := SendUpdate(Disconnected);
        looping := false;
      }
    }

    /** The whole task, for a script of events. */
    method Start(connects: bool, events: seq<Event>)
      requires View() == Handler(accepts, [], [], None, false)
      modifies this
      ensures View() == RunHandler(accepts, connects, events)
    {
      var taken := SendUpdate(Idle);
      if !taken {
        return;
      }
      if !connects {
        var _ := SendUpdate(ConnectError);
        return;
      }
      taken := SendUpdate(Connected);
      if !taken {
        return;
      }
      looping := true;
      ghost var begun := Begin(accepts, connects);
      assert View() == begun;
      hide Turn, Begin;
      var n := 0;
      assert events[..0] == [];
      while n < |events| && looping
        invariant n <= |events|
        invariant View() == Turns(begun, events[..n])
        invariant !looping ==> View() == Turns(begun, events)
      {
        TurnsSnoc(begun, events[..n], events[n]);
        assert events[..n + 1] == events[..n] + [events[n]];
        Handle(events[n]);
        n := n + 1;
        if !looping {
          StoppedStays(begun, events[..n], events[n..]);
          assert events[..n] + events[n..] == events;
        }
      }
      assert n == |events| ==> events[..n] == events;
    }
  }

  /** Once out of the loop, later events are not seen. */
  lemma {:induction false} StoppedStays(h: Handler, a: seq<Event>, b: seq<Event>)
    requires !Turns(h, a).looping
    ensures Turns(h, a + b) == Turns(h, a)
    decreases |a|
  {
    hide Turn;
    if a == [] {
      assert a + b == b;
    } else if h.looping {
      Front(a, b);
      StoppedStays(Turn(h, a[0]), a[1..], b);
    }
  }
}
