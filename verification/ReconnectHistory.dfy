/** What the history of the reconnect flow says about retries and their delays,
    independently of the counter the manager keeps. */
module ReconnectHistory {
  import opened Wrappers
  import opened ManagerModel
  import Backoff

  /** The flow status announced last. */
  function LastFlow(marks: seq<Mark>): Flow {
    if marks == [] then Inactive
    else
      match marks[|marks| - 1]
      case FlowSet(f) => f
      case Retried(_) => LastFlow(marks[..|marks| - 1])
  }

  /** Retries since the flow last became Active from another status. */
  function RetriesInStretch(marks: seq<Mark>): nat {
    if marks == [] then 0
    else
      var before := marks[..|marks| - 1];
      match marks[|marks| - 1]
      case FlowSet(f) => if f == Active && LastFlow(before) != Active then 0 else RetriesInStretch(before)
      case Retried(_) => RetriesInStretch(before) + 1
  }

  /** Every retry happens while Active, and every delay is the one for the number
      of retries the stretch has seen. */
  predicate RetriesFollowSchedule(marks: seq<Mark>)
    decreases |marks|
  {
    || marks == []
    || (var before := marks[..|marks| - 1];
        var last := marks[|marks| - 1];
        && RetriesFollowSchedule(before)
        && (last.Retried? ==> LastFlow(before) == Active)
        && (last.Retried? && last.delayFor.Some? ==>
              last.delayFor.value == RetriesInStretch(before)))
  }

  /** The waits in milliseconds, in order. */
  function WaitIn(mark: Mark): Option<nat> {
    if mark.Retried? && mark.delayFor.Some? then Some(Backoff.Delay(mark.delayFor.value)) else None
  }

  function Waits(marks: seq<Mark>): seq<nat> {
    Collect(WaitIn, marks)
  }

  lemma Snoc(marks: seq<Mark>, mark: Mark)
    ensures (marks + [mark])[..|marks|] == marks
    ensures LastFlow(marks + [mark]) == (if mark.FlowSet? then mark.flow else LastFlow(marks))
    ensures RetriesInStretch(marks + [mark]) ==
      if mark.Retried? then RetriesInStretch(marks) + 1
      else if mark.flow == Active && LastFlow(marks) != Active then 0
      else RetriesInStretch(marks)
    ensures RetriesFollowSchedule(marks + [mark]) <==>
      && RetriesFollowSchedule(marks)
      && (mark.Retried? ==> LastFlow(marks) == Active)
      && (mark.Retried? && mark.delayFor.Some? ==> mark.delayFor.value == RetriesInStretch(marks))
  {
    assert (marks + [mark])[..|marks|] == marks;
  }

  lemma WaitsSnoc(marks: seq<Mark>, mark: Mark)
    ensures mark.FlowSet? ==> Waits(marks + [mark]) == Waits(marks)
    ensures mark.Retried? ==>
      Waits(marks + [mark]) == Waits(marks) + (if mark.delayFor.Some? then [Backoff.Delay(mark.delayFor.value)] else [])
  {
    CollectSnoc(WaitIn, marks, mark);
  }

  lemma {:induction false} ScheduleOfPrefix(marks: seq<Mark>, k: nat)
    requires RetriesFollowSchedule(marks) && k <= |marks|
    ensures RetriesFollowSchedule(marks[..k])
    decreases |marks|
  {
    if k == |marks| {
      assert marks[..k] == marks;
    } else {
      assert marks[..|marks| - 1][..k] == marks[..k];
      ScheduleOfPrefix(marks[..|marks| - 1], k);
    }
  }

  /** The flow is not announced as anything but Active from mark i up to mark j. */
  predicate Uninterrupted(marks: seq<Mark>, i: nat, j: nat)
    requires i <= j <= |marks|
  {
    forall k | i <= k < j && marks[k].FlowSet? :: marks[k].flow == Active
  }

  lemma {:induction false} StretchGrows(marks: seq<Mark>, i: nat, j: nat)
    requires i < j <= |marks| && marks[i].Retried?
    requires LastFlow(marks[..i]) == Active && Uninterrupted(marks, i, j)
    ensures LastFlow(marks[..j]) == Active
    ensures RetriesInStretch(marks[..j]) > RetriesInStretch(marks[..i])
    decreases j
  {
    Snoc(marks[..j - 1], marks[j - 1]);
    assert marks[..j] == marks[..j - 1] + [marks[j - 1]];
    if i < j - 1 {
      StretchGrows(marks, i, j - 1);
    }
  }

  /** Main result: within one uninterrupted stretch no wait is shorter than an
      earlier one, and every wait is a period a timer accepts. */
  lemma WaitsNeverShrink(marks: seq<Mark>, i: nat, j: nat)
    requires RetriesFollowSchedule(marks)
    requires i < j < |marks| && Uninterrupted(marks, i, j)
    requires WaitIn(marks[i]).Some? && WaitIn(marks[j]).Some?
    ensures Backoff.MIN_DELAY <= WaitIn(marks[i]).value <= WaitIn(marks[j]).value <= Backoff.MAX_DELAY
  {
    WaitAt(marks, i);
    WaitAt(marks, j);
    StretchGrows(marks, i, j);
    Backoff.FalloffMonotone(RetriesInStretch(marks[..i]), RetriesInStretch(marks[..j]), Backoff.MIN_DELAY, Backoff.MAX_DELAY);
    Backoff.DelayIsClamp(RetriesInStretch(marks[..i]));
    Backoff.DelayIsClamp(RetriesInStretch(marks[..j]));
  }

  lemma WaitAt(marks: seq<Mark>, k: nat)
    requires RetriesFollowSchedule(marks)
    requires k < |marks| && marks[k].Retried?
    ensures LastFlow(marks[..k]) == Active
    ensures marks[k].delayFor.Some? ==> marks[k].delayFor.value == RetriesInStretch(marks[..k])
  {
    ScheduleOfPrefix(marks, k + 1);
    Snoc(marks[..k], marks[k]);
    assert marks[..k + 1] == marks[..k] + [marks[k]];
  }
}
