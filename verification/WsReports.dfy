/** What one WebSocket handler reports, told from its script of events alone. */
module WsReports {
  import opened Wrappers
  import opened WsHandlerModel

  predicate PingAsked(e: Event) {
    e.TestRequested? && e.written
  }

  /** A ping asked for at `j` has had no pong before `k`. */
  predicate Unanswered(events: seq<Event>, j: nat, k: nat)
    requires k <= |events|
  {
    j < k && PingAsked(events[j]) && forall i | j < i < k :: !events[i].PongReceived?
  }

  /** The ping still out at `k` is the first of these: while it is out, no other is
      written. */
  predicate PingOut(events: seq<Event>, j: nat, k: nat)
    requires k <= |events|
  {
    Unanswered(events, j, k) && forall i | 0 <= i < j :: !Unanswered(events, i, k)
  }

  predicate PingIsOut(events: seq<Event>, k: nat)
    requires k <= |events|
  {
    exists j | 0 <= j < k :: PingOut(events, j, k)
  }

  /** A tick more than 1500 ms after the write of the ping still out. */
  predicate Overdue(events: seq<Event>, k: nat)
    requires k < |events|
  {
    events[k].Tick? && exists j | 0 <= j < k :: PingOut(events, j, k) && events[k].now - events[j].now > 1500
  }

  /** What the event at `k` has reported, if the loop is there to see it. */
  function Report(events: seq<Event>, k: nat): seq<Message>
    requires k < |events|
  {
    match events[k]
    case TextReceived(text) => [Payload(text)]
    case PongReceived => if PingIsOut(events, k) then [IsConnectionOk(true)] else []
    case Tick(_) => if Overdue(events, k) then [IsConnectionOk(false)] else []
    case CloseReceived => [ServerClosedConnection]
    case ReadFailed => [MessageReadError]
    case _ => []
  }

  function Reports(events: seq<Event>, n: nat): seq<Message>
    requires n <= |events|
  {
    if n == 0 then [] else Reports(events, n - 1) + Report(events, n - 1)
  }

  /** The frames the event at `k` has written to the socket, if the loop is there to
      see it. */
  function Writing(events: seq<Event>, k: nat): seq<Frame>
    requires k < |events|
  {
    match events[k]
    case PayloadRequested(text, true) => [TextFrame(text)]
    case TestRequested(_, true) => if PingIsOut(events, k) then [] else [PingFrame]
    case ShutDownRequested(true) => [CloseFrame]
    case ManagerGone(true) => [CloseFrame]
    case _ => []
  }

  function Writings(events: seq<Event>, n: nat): seq<Frame>
    requires n <= |events|
  {
    if n == 0 then [] else Writings(events, n - 1) + Writing(events, n - 1)
  }

  /** Whether the event at `k` ends the loop: a shutdown, the end of either side, a
      write that fails, or a payload the manager's end no longer takes. */
  predicate Ends(accepts: nat, events: seq<Event>, k: nat)
    requires k < |events|
  {
    match events[k]
    case ShutDownRequested(_) => true
    case ManagerGone(_) => true
    case PayloadRequested(_, written) => !written
    case TestRequested(_, written) => !written && !PingIsOut(events, k)
    case TextReceived(_) => 2 + |Reports(events, k)| >= accepts
    case CloseReceived => true
    case ReadFailed => true
    case _ => false
  }

  /** How many events the loop sees from `k` on. */
  function SeenFrom(accepts: nat, events: seq<Event>, k: nat): nat
    requires k <= |events|
    decreases |events| - k
  {
    if k == |events| then 0
    else if Ends(accepts, events, k) then 1
    else 1 + SeenFrom(accepts, events, k + 1)
  }

  // ------------------------------------------------------------------- the loop

  /** The test pending in the handler is the ping still out. */
  ghost predicate TestIs(start: Option<int>, events: seq<Event>, k: nat)
    requires k <= |events|
  {
    match start
    case None => forall j | 0 <= j < k :: !Unanswered(events, j, k)
    case Some(at) => exists j | 0 <= j < k :: PingOut(events, j, k) && events[j].now == at
  }

  /** `begun` is what was sent before the loop. */
  ghost predicate Follows(h: Handler, begun: seq<Message>, events: seq<Event>, k: nat)
    requires k <= |events|
  {
    && |begun| == 2 && h.looping && h.sent == begun + Reports(events, k) && h.wire == Writings(events, k)
    && TestIs(h.testStart, events, k)
  }

  lemma UnansweredNext(events: seq<Event>, j: nat, k: nat)
    requires j <= k < |events|
    ensures Unanswered(events, j, k + 1) <==>
      if j == k then PingAsked(events[k]) else Unanswered(events, j, k) && !events[k].PongReceived?
  {
  }

  lemma OneIsOut(events: seq<Event>, i: nat, j: nat, k: nat)
    requires k <= |events| && PingOut(events, i, k) && PingOut(events, j, k)
    ensures i == j
  {
  }

  lemma PingOutNext(events: seq<Event>, j: nat, k: nat, next: nat)
    requires j < k < |events| && next == k + 1 && PingOut(events, j, k) && !events[k].PongReceived?
    ensures PingOut(events, j, next)
  {
    UnansweredNext(events, j, k);
    forall i: nat | i < j
      ensures !Unanswered(events, i, next)
    {
      assert !Unanswered(events, i, k);
      UnansweredNext(events, i, k);
    }
  }

  lemma NoneOutNext(events: seq<Event>, k: nat, next: nat)
    requires k < |events| && next == k + 1
    requires (forall j: nat | j < k :: !Unanswered(events, j, k)) || events[k].PongReceived?
    ensures forall j: nat | j < k :: !Unanswered(events, j, next)
    ensures if PingAsked(events[k]) then PingOut(events, k, next) else !Unanswered(events, k, next)
  {
    forall j: nat | j < k
      ensures !Unanswered(events, j, next)
    {
      UnansweredNext(events, j, k);
    }
    UnansweredNext(events, k, k);
  }

  lemma TestNext(h: Handler, events: seq<Event>, k: nat)
    requires k < |events| && h.looping && TestIs(h.testStart, events, k) && Turn(h, events[k]).looping
    ensures TestIs(Turn(h, events[k]).testStart, events, k + 1)
  {
    if h.testStart.Some? && !events[k].PongReceived? {
      var j: nat :| j < k && PingOut(events, j, k) && events[j].now == h.testStart.value;
      PingOutNext(events, j, k, k + 1);
    } else {
      NoneOutNext(events, k, k + 1);
    }
    hide PingOut, Unanswered;
  }

  lemma TestTells(h: Handler, events: seq<Event>, k: nat)
    requires k < |events| && TestIs(h.testStart, events, k)
    ensures PingIsOut(events, k) <==> h.testStart.Some?
    ensures Overdue(events, k) <==> events[k].Tick? && h.testStart.Some? && Late(h.testStart.value, events[k].now)
  {
    if h.testStart.Some? {
      var j: nat :| j < k && PingOut(events, j, k) && events[j].now == h.testStart.value;
      forall i: nat | i < k && PingOut(events, i, k)
        ensures i == j
      {
        OneIsOut(events, i, j, k);
      }
    }
  }

  /** One turn, for a handler whose test pending is the ping still out. */
  lemma TurnTells(h: Handler, events: seq<Event>, k: nat)
    requires k < |events| && h.looping && |h.sent| == 2 + |Reports(events, k)|
    requires PingIsOut(events, k) <==> h.testStart.Some?
    requires Overdue(events, k) <==> events[k].Tick? && h.testStart.Some? && Late(h.testStart.value, events[k].now)
    ensures var t := Turn(h, events[k]);
      && (t.looping <==> !Ends(h.accepts, events, k))
      && t.sent == h.sent + Report(events, k) + (if t.looping then [] else [Disconnected])
      && t.wire == h.wire + Writing(events, k)
  {
    hide PingIsOut, Overdue, Reports;
    assert h.wire + [] == h.wire && h.sent + [] == h.sent;
  }

  lemma TurnReports(h: Handler, begun: seq<Message>, events: seq<Event>, k: nat)
    requires k < |events| && Follows(h, begun, events, k)
    ensures var t := Turn(h, events[k]);
      if Ends(h.accepts, events, k)
      then !t.looping && t.sent == begun + Reports(events, k + 1) + [Disconnected] && t.wire == Writings(events, k + 1)
      else Follows(t, begun, events, k + 1)
  {
    TestTells(h, events, k);
    TurnTells(h, events, k);
    var t := Turn(h, events[k]);
    if t.looping {
      TestNext(h, events, k);
    }
    assert Reports(events, k + 1) == Reports(events, k) + Report(events, k);
    assert Writings(events, k + 1) == Writings(events, k) + Writing(events, k);
    Assoc(begun, Reports(events, k), Report(events, k));
    assert t.looping ==> t.sent + [] == t.sent;
    hide Turn, Report, Writing, Ends, Reports, Writings, TestIs, PingIsOut, Overdue;
  }

  lemma {:induction false} TurnsReport(h: Handler, begun: seq<Message>, events: seq<Event>, k: nat)
    requires k <= |events| && Follows(h, begun, events, k)
    ensures var t, n := Turns(h, events[k..]), k + SeenFrom(h.accepts, events, k);
      && n <= |events|
      && t.sent == begun + Reports(events, n) + (if t.looping then [] else [Disconnected])
      && t.wire == Writings(events, n)
      && (t.looping <==> forall i | k <= i < |events| :: !Ends(h.accepts, events, i))
    decreases |events| - k
  {
    hide Turn, Ends, Reports, Writings;
    if k == |events| {
      assert events[k..] == [];
    } else {
      TurnReports(h, begun, events, k);
      TurnKeepsAccepts(h, events[k]);
      var t := Turn(h, events[k]);
      assert events[k..][0] == events[k] && events[k..][1..] == events[k + 1..];
      if !Ends(h.accepts, events, k) {
        TurnsReport(t, begun, events, k + 1);
      }
    }
  }

  lemma TurnKeepsAccepts(h: Handler, e: Event)
    ensures Turn(h, e).accepts == h.accepts
  {
  }

  // --------------------------------------------------------------- the whole run

  predicate LoopBegins(accepts: nat, connects: bool) {
    connects && accepts >= 2
  }

  function Seen(accepts: nat, connects: bool, events: seq<Event>): nat {
    if LoopBegins(accepts, connects) then SeenFrom(accepts, events, 0) else 0
  }

  /** Main result: a handler whose loop begins sends exactly the reports due to the
      events up to the first that ends the loop, in order, and Disconnected once one
      has; and it writes exactly the frames due to them, in order: the text of every
      payload written, a ping for every test begun, a close for a shutdown or a manager
      gone if that can be written. */
  lemma HandlerReports(accepts: nat, events: seq<Event>)
    requires LoopBegins(accepts, true)
    ensures var h, n := RunHandler(accepts, true, events), Seen(accepts, true, events);
      && n <= |events|
      && h.sent == [Idle, Connected] + Reports(events, n) + (if h.looping then [] else [Disconnected])
      && h.wire == Writings(events, n)
      && (h.looping <==> forall i | 0 <= i < |events| :: !Ends(accepts, events, i))
  {
    LoopBeginsWell(accepts, events);
    LoopReports(Begin(accepts, true), [Idle, Connected], events);
    hide Begin, Turns, Reports, Writings, Ends, SeenFrom, Follows;
  }

  lemma LoopReports(h: Handler, begun: seq<Message>, events: seq<Event>)
    requires Follows(h, begun, events, 0)
    ensures var t, n := Turns(h, events), SeenFrom(h.accepts, events, 0);
      && n <= |events|
      && t.sent == begun + Reports(events, n) + (if t.looping then [] else [Disconnected])
      && t.wire == Writings(events, n)
      && (t.looping <==> forall i | 0 <= i < |events| :: !Ends(h.accepts, events, i))
  {
    assert events[0..] == events;
    hide Turns, Reports, Writings, Ends, SeenFrom, Follows;
    TurnsReport(h, begun, events, 0);
  }

  lemma LoopBeginsWell(accepts: nat, events: seq<Event>)
    requires LoopBegins(accepts, true)
    ensures Follows(Begin(accepts, true), [Idle, Connected], events, 0) && Begin(accepts, true).accepts == accepts
  {
    hide Unanswered, PingOut;
    assert Reports(events, 0) == [] && Writings(events, 0) == [];
    assert Begin(accepts, true).sent == [Idle, Connected] + [];
  }

  /** A handler whose loop never begins has announced how far it came, and writes
      nothing. */
  lemma HandlerNeverLoops(accepts: nat, connects: bool, events: seq<Event>)
    requires !LoopBegins(accepts, connects)
    ensures var h := RunHandler(accepts, connects, events);
      && !h.looping && h.wire == []
      && h.sent == if accepts == 0 then [Idle] else if connects then [Idle, Connected] else [Idle, ConnectError]
  {
    var h := Begin(accepts, connects);
    assert Turns(h, events) == h;
    assert [] + [Idle] == [Idle];
    assert [Idle] + [Connected] == [Idle, Connected] && [Idle] + [ConnectError] == [Idle, ConnectError];
  }

  function FailureIn(m: Message): Option<Message> {
    if m == IsConnectionOk(false) then Some(m) else None
  }

  ghost function OverdueTicks(events: seq<Event>, n: nat): set<nat>
    requires n <= |events|
  {
    set k: nat | k < n && Overdue(events, k)
  }

  lemma OverdueTicksNext(events: seq<Event>, n: nat)
    requires 0 < n <= |events|
    ensures |OverdueTicks(events, n)| == |OverdueTicks(events, n - 1)| + if Overdue(events, n - 1) then 1 else 0
  {
    hide Overdue;
    var before := OverdueTicks(events, n - 1);
    assert OverdueTicks(events, n) == if Overdue(events, n - 1) then before + {n - 1} else before;
  }

  lemma {:induction false} FailuresIn(events: seq<Event>, n: nat)
    requires n <= |events|
    ensures |Collect(FailureIn, Reports(events, n))| == |OverdueTicks(events, n)|
  {
    if n == 0 {
      assert OverdueTicks(events, 0) == {};
    } else {
      hide Collect, Report, Overdue, OverdueTicks;
      FailuresIn(events, n - 1);
      FailureReported(Reports(events, n - 1), events, n - 1);
      OverdueTicksNext(events, n);
    }
  }

  lemma FailureReported(before: seq<Message>, events: seq<Event>, k: nat)
    requires k < |events|
    ensures |Collect(FailureIn, before + Report(events, k))| ==
      |Collect(FailureIn, before)| + if Overdue(events, k) then 1 else 0
  {
    var r := Report(events, k);
    if r == [] {
      assert before + r == before;
    } else {
      assert r == [r[0]];
      CollectSnoc(FailureIn, before, r[0]);
    }
    hide Collect;
  }

  lemma FailuresAround(begun: seq<Message>, reports: seq<Message>, ended: bool)
    requires begun == [Idle, Connected]
    ensures Collect(FailureIn, begun + reports + (if ended then [Disconnected] else [])) == Collect(FailureIn, reports)
  {
    CollectOne(FailureIn, Idle);
    CollectSnoc(FailureIn, [Idle], Connected);
    assert [Idle] + [Connected] == [Idle, Connected];
    CollectAppend(FailureIn, begun, reports);
    CollectSnoc(FailureIn, begun + reports, Disconnected);
    assert begun + reports + [] == begun + reports;
    hide Collect;
  }

  lemma NoFailures(accepts: nat, connects: bool, events: seq<Event>)
    requires !LoopBegins(accepts, connects)
    ensures Collect(FailureIn, RunHandler(accepts, connects, events).sent) == []
  {
    var h := Begin(accepts, connects);
    assert Turns(h, events) == h;
    CollectOne(FailureIn, Idle);
    CollectSnoc(FailureIn, [Idle], ConnectError);
    CollectSnoc(FailureIn, [Idle], Connected);
    assert h.sent == [Idle] || h.sent == [Idle] + [ConnectError] || h.sent == [Idle] + [Connected];
  }

  /** Main result: in every run, the failed tests reported are exactly as many as the
      ticks seen more than 1500 ms after the write of the ping still unanswered. */
  lemma FailuresAreOverdueTicks(accepts: nat, connects: bool, events: seq<Event>)
    ensures Seen(accepts, connects, events) <= |events|
    ensures |Collect(FailureIn, RunHandler(accepts, connects, events).sent)|
      == |OverdueTicks(events, Seen(accepts, connects, events))|
  {
    if LoopBegins(accepts, connects) {
      HandlerReports(accepts, events);
      var h, n := RunHandler(accepts, connects, events), Seen(accepts, connects, events);
      hide RunHandler, Seen, Reports;
      FailuresIn(events, n);
      FailuresAround([Idle, Connected], Reports(events, n), !h.looping);
    } else {
      NoFailures(accepts, connects, events);
      assert OverdueTicks(events, 0) == {};
    }
  }
}
