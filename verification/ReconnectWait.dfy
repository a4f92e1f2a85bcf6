/** The wait before a retry: how long it is, and what the caller is told meanwhile. */
module ReconnectWait {
  import opened Wrappers
  import opened StateMachine
  import opened ManagerModel
  import opened ReconnectHistory
  import Backoff

  datatype Wait = Wait(delay: nat, announced: seq<State>)

  function TimeLeft(delay: nat, elapsed: nat): nat {
    if elapsed >= delay then 0 else delay - elapsed
  }

  /** The statuses announced until the retry is due, one for every feedback tick at
      which the clock has not been set back. */
  function Announcements(url: Url, attempts: nat, delay: nat, ticks: seq<WaitTick>): seq<State>
    decreases |ticks|
  {
    if ticks == [] || ticks[0].RetryDue? then []
    else
      var rest := Announcements(url, attempts, delay, ticks[1..]);
      match ticks[0].elapsed
      case Some(elapsed) => [WaitingToReconnect(url, attempts, TimeLeft(delay, elapsed))] + rest
      case None => rest
  }

  lemma NextAnnouncement(url: Url, attempts: nat, delay: nat, ticks: seq<WaitTick>, n: nat)
    requires n < |ticks| && ticks[n].Feedback?
    ensures Announcements(url, attempts, delay, ticks[n..]) ==
      (match ticks[n].elapsed
       case Some(elapsed) => [WaitingToReconnect(url, attempts, TimeLeft(delay, elapsed))]
       case None => []) + Announcements(url, attempts, delay, ticks[n + 1..])
  {
    assert ticks[n..][1..] == ticks[n + 1..];
    var later := Announcements(url, attempts, delay, ticks[n + 1..]);
    assert [] + later == later;
  }

  lemma NothingMoreAnnounced(url: Url, attempts: nat, delay: nat, ticks: seq<WaitTick>, n: nat)
    requires n <= |ticks| && (n < |ticks| ==> ticks[n].RetryDue?)
    ensures Announcements(url, attempts, delay, ticks[n..]) == []
  {
  }

  /** The wait a reconnect attempt makes, if it comes to one. */
  function WaitBefore(m: Manager, immediate: bool, env: Env): Option<Wait> {
    var m1 := SetFlow(m, Active);
    if immediate || (!env.reconnectLoad && m.checker.operational) || m1.wsUrl.None? || m1.connection.None? then None
    else
      var attempts := m1.reconnect.attempts;
      var delay := Backoff.Delay(attempts);
      Some(Wait(delay, Announcements(m1.wsUrl.value, attempts, delay, env.waitTicks)))
  }

  // ------------------------------------------------------------ the announcements

  predicate IsAtLeast(tick: WaitTick, low: nat) {
    tick.Feedback? && tick.elapsed.Some? ==> low <= tick.elapsed.value
  }

  /** The clock is never seen to run backwards between two ticks. */
  predicate ClockRuns(ticks: seq<WaitTick>) {
    forall i, j :: 0 <= i < j < |ticks| && ticks[i].Feedback? && ticks[i].elapsed.Some? ==>
      IsAtLeast(ticks[j], ticks[i].elapsed.value)
  }

  predicate IsFor(s: State, url: Url, attempts: nat, most: nat) {
    s.WaitingToReconnect? && s.url == url && s.attempts == attempts && s.nextAttemptMs <= most
  }

  predicate NoMoreLeft(later: State, earlier: State) {
    later.WaitingToReconnect? && earlier.WaitingToReconnect? && later.nextAttemptMs <= earlier.nextAttemptMs
  }

  predicate NeverGrows(told: seq<State>) {
    forall i, j | 0 <= i < j < |told| :: NoMoreLeft(told[j], told[i])
  }

  lemma {:induction false} AnnouncedFor(url: Url, attempts: nat, delay: nat, ticks: seq<WaitTick>, low: nat)
    requires forall k | 0 <= k < |ticks| :: IsAtLeast(ticks[k], low)
    ensures forall s | s in Announcements(url, attempts, delay, ticks) :: IsFor(s, url, attempts, TimeLeft(delay, low))
    decreases |ticks|
  {
    if ticks != [] && ticks[0].Feedback? {
      AnnouncedFor(url, attempts, delay, ticks[1..], low);
      assert IsAtLeast(ticks[0], low);
    }
  }

  /** Every announcement of one wait names the same URL and the same count of
      attempts, and promises at most the whole delay; and while the clock runs
      forward the time left never grows. */
  lemma {:induction false} AnnouncementsCountDown(url: Url, attempts: nat, delay: nat, ticks: seq<WaitTick>)
    ensures forall s | s in Announcements(url, attempts, delay, ticks) :: IsFor(s, url, attempts, delay)
    ensures ClockRuns(ticks) ==> NeverGrows(Announcements(url, attempts, delay, ticks))
    decreases |ticks|
  {
    AnnouncedFor(url, attempts, delay, ticks, 0);
    if ClockRuns(ticks) && ticks != [] && ticks[0].Feedback? {
      var later := ticks[1..];
      assert forall k :: 0 <= k < |later| ==> later[k] == ticks[k + 1];
      assert ClockRuns(later);
      AnnouncementsCountDown(url, attempts, delay, later);
      if ticks[0].elapsed.Some? {
        AnnouncedFor(url, attempts, delay, later, ticks[0].elapsed.value);
        var rest := Announcements(url, attempts, delay, later);
        var told := Announcements(url, attempts, delay, ticks);
        assert told[1..] == rest;
        forall i, j | 0 <= i < j < |told| ensures NoMoreLeft(told[j], told[i]) {
          assert told[j] == rest[j - 1] && told[j] in rest;
          assert i > 0 ==> told[i] == rest[i - 1];
        }
      }
    }
  }

  /** The ticks before the first that ends the wait. */
  function BeforeDue(ticks: seq<WaitTick>): seq<WaitTick>
    decreases |ticks|
  {
    if ticks == [] || ticks[0].RetryDue? then [] else [ticks[0]] + BeforeDue(ticks[1..])
  }

  lemma {:induction false} BeforeDueIsPrefix(ticks: seq<WaitTick>)
    ensures var n := |BeforeDue(ticks)|;
      && n <= |ticks| && BeforeDue(ticks) == ticks[..n]
      && (forall k | 0 <= k < n :: ticks[k].Feedback?) && (n < |ticks| ==> ticks[n].RetryDue?)
    decreases |ticks|
  {
    if ticks != [] && ticks[0].Feedback? {
      BeforeDueIsPrefix(ticks[1..]);
      var n := |BeforeDue(ticks)|;
      assert forall k :: 0 < k < n ==> ticks[k] == ticks[1..][k - 1];
      assert ticks[..n] == [ticks[0]] + ticks[1..][..n - 1];
    }
  }

  function ReadingIn(tick: WaitTick): Option<nat> {
    if tick.Feedback? then tick.elapsed else None
  }

  /** The clock readings of the feedback ticks before the retry is due, in order. */
  function Readings(ticks: seq<WaitTick>): seq<nat> {
    Collect(ReadingIn, BeforeDue(ticks))
  }

  /** One announcement for each clock reading before the retry is due, in order; and each
      promises exactly the time left of the delay: with the time elapsed it makes up the
      whole delay, and it is 0 once the delay has passed. */
  lemma {:induction false} AnnouncedExactly(url: Url, attempts: nat, delay: nat, ticks: seq<WaitTick>)
    ensures var told, read := Announcements(url, attempts, delay, ticks), Readings(ticks);
      && |told| == |read|
      && forall k | 0 <= k < |told| ::
        && told[k].WaitingToReconnect? && told[k].url == url && told[k].attempts == attempts
        && (if read[k] <= delay then told[k].nextAttemptMs + read[k] == delay else told[k].nextAttemptMs == 0)
    decreases |ticks|
  {
    if ticks != [] && ticks[0].Feedback? {
      AnnouncedExactly(url, attempts, delay, ticks[1..]);
      assert BeforeDue(ticks)[1..] == BeforeDue(ticks[1..]);
      var told, read := Announcements(url, attempts, delay, ticks), Readings(ticks);
      if ticks[0].elapsed.Some? {
        assert told[1..] == Announcements(url, attempts, delay, ticks[1..]) && read[1..] == Readings(ticks[1..]);
        assert forall k :: 0 < k < |told| ==> told[k] == told[1..][k - 1] && read[k] == read[1..][k - 1];
      }
    }
  }

  // ------------------------------------------------- the wait and the rest of it

  predicate Attempted(m: Manager, env: Env) {
    env.reconnectLoad || !m.checker.operational
  }

  /** What an attempt that is not prevented does to the reconnect flow. */
  lemma AttemptIs(m: Manager, immediate: bool, env: Env)
    requires m.link == Open && Attempted(m, env)
    ensures var r := InitiateReconnect(m, immediate, env).reconnect;
      var r1 := Announce(m.reconnect, Active);
      if m.wsUrl.None? then r == Announce(r1, Inactive)
      else if m.connection.None? then r == r1
      else
        var r2 := CountRetry(r1, immediate);
        r == r2 || r == Announce(r2, Active) || r == Announce(r2, Inactive)
  {
  }

  lemma AnnounceWaits(r: Reconnect, f: Flow)
    ensures Waits(Announce(r, f).marks) == Waits(r.marks)
  {
    WaitsSnoc(r.marks, FlowSet(f));
  }

  /** The history records exactly the waits that were made. */
  lemma WaitIsRecorded(m: Manager, immediate: bool, env: Env)
    requires m.link == Open
    ensures var wait := WaitBefore(m, immediate, env);
      Waits(InitiateReconnect(m, immediate, env).reconnect.marks) ==
        Waits(m.reconnect.marks) + (if wait.Some? then [wait.value.delay] else [])
  {
    var r1 := Announce(m.reconnect, Active);
    assert Waits(m.reconnect.marks) + [] == Waits(m.reconnect.marks);
    if Attempted(m, env) {
      AttemptIs(m, immediate, env);
      hide InitiateReconnect, Backoff.Delay, Waits, WaitIn, Announce, Announcements;
      AnnounceWaits(m.reconnect, Active);
      AnnounceWaits(r1, Inactive);
      var r2 := CountRetry(r1, immediate);
      WaitsSnoc(r1.marks, Retried(if immediate then None else Some(r1.attempts)));
      AnnounceWaits(r2, Active);
      AnnounceWaits(r2, Inactive);
    }
  }

  /** Every announcement of a wait counts the retries the stretch has seen, and the wait
      is as long as the schedule has for that count. */
  lemma AnnouncedIsCounted(m: Manager, env: Env, s: State)
    requires WaitBefore(m, false, env).Some? && s in WaitBefore(m, false, env).value.announced
    requires m.reconnect.flow == LastFlow(m.reconnect.marks)
    requires m.reconnect.flow == Active ==> m.reconnect.attempts == RetriesInStretch(m.reconnect.marks)
    ensures s.WaitingToReconnect? && Some(s.url) == m.wsUrl
    ensures s.attempts == RetriesInStretch(m.reconnect.marks + [FlowSet(Active)])
    ensures WaitBefore(m, false, env).value.delay == Backoff.Delay(s.attempts)
  {
    hide Backoff.Delay;
    var m1 := SetFlow(m, Active);
    var attempts := m1.reconnect.attempts;
    Snoc(m.reconnect.marks, FlowSet(Active));
    AnnouncementsCountDown(m1.wsUrl.value, attempts, Backoff.Delay(attempts), env.waitTicks);
    assert IsFor(s, m1.wsUrl.value, attempts, Backoff.Delay(attempts));
    hide Announcements;
  }

  /** A wait announces the URL last read from disk, but the retry that follows dials
      the connection's own: the two agree exactly when the disk has not replaced it. */
  lemma AnnouncedUrlIsDialed(m: Manager, env: Env, s: State)
    requires m.link == Open && m.status == Disconnected && m.connection.Some? && m.connection.value.wsUrl.Some?
    requires WaitBefore(m, false, env).Some? && s in WaitBefore(m, false, env).value.announced
    ensures s.WaitingToReconnect? && InitiateReconnect(m, false, env).outbox != []
    ensures InitiateReconnect(m, false, env).outbox == m.outbox + [Connect(s.url)] <==>
      m.wsUrl == m.connection.value.wsUrl
  {
    hide Backoff.Delay;
    var m1 := SetFlow(m, Active);
    var attempts := m1.reconnect.attempts;
    AnnouncementsCountDown(m1.wsUrl.value, attempts, Backoff.Delay(attempts), env.waitTicks);
    assert IsFor(s, m1.wsUrl.value, attempts, Backoff.Delay(attempts));
    hide Announcements;
    var out := InitiateReconnect(m, false, env).outbox;
    assert out == m.outbox + [Connect(m.connection.value.wsUrl.value)];
    assert out[|m.outbox|] == Connect(m.connection.value.wsUrl.value);
    assert (m.outbox + [Connect(s.url)])[|m.outbox|] == Connect(s.url);
  }
}
